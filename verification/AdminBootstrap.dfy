/** The first-run admin: several workers race to create it, and may crash anywhere. */
module AdminBootstrap {
  import opened Wrappers

  datatype Row = Row(hash: string, admin: bool, live: bool)

  /** The users table as far as the bootstrap looks: the row of the configured address,
      and whether any other committed row is a live admin.  `pending` is an insert whose
      transaction is still open. */
  datatype Db = Db(row: Option<Row>, otherAdmin: bool, pending: Option<(nat, string)>)

  predicate LiveAdmin(db: Db) {
    db.otherAdmin || (db.row.Some? && db.row.value.admin && db.row.value.live)
  }

  datatype Pc = Checking | Inserting | RollingBack | Committing | Committed | Ended(result: Option<string>) | Crashed

  /** A worker with the password it generates if it gets that far. */
  datatype Worker = Worker(password: string, pc: Pc)

  /** `winner` is history only: the worker whose commit went through. */
  datatype State = State(db: Db, workers: seq<Worker>, winner: Option<nat>)

  /** One statement of worker `i`.  The insert waits while another open transaction has
      inserted the same address. */
  function Statement(hash: string -> string, s: State, i: nat): State
    requires i < |s.workers|
  {
    var w := s.workers[i];
    match w.pc
    case Checking =>
      s.(workers := s.workers[i := w.(pc := if LiveAdmin(s.db) then Ended(None) else Inserting)])
    case Inserting =>
      if s.db.pending.Some? then s
      else if s.db.row.Some? then s.(workers := s.workers[i := w.(pc := RollingBack)])
      else s.(db := s.db.(pending := Some((i, hash(w.password)))), workers := s.workers[i := w.(pc := Committing)])
    case RollingBack =>
      s.(workers := s.workers[i := w.(pc := Ended(None))])
    case Committing =>
      var stored := if s.db.pending.Some? then s.db.pending.value.1 else "";
      State(Db(Some(Row(stored, true, true)), s.db.otherAdmin, None),
            s.workers[i := w.(pc := Committed)], Some(i))
    case Committed =>
      s.(workers := s.workers[i := w.(pc := Ended(Some(w.password)))])
    case Ended(_) => s
    case Crashed => s
  }

  /** A crash ends the open transaction; so does a commit that fails. */
  function Crash(s: State, i: nat): State
    requires i < |s.workers|
  {
    var w := s.workers[i];
    if w.pc.Ended? then s
    else
      s.(db := if s.db.pending.Some? && s.db.pending.value.0 == i then s.db.(pending := None) else s.db,
         workers := s.workers[i := w.(pc := Pc.Crashed)])
  }

  datatype Event = Runs(worker: nat) | Crashes(worker: nat)

  function Next(hash: string -> string, s: State, e: Event): State {
    if e.worker >= |s.workers| then s
    else if e.Runs? then Statement(hash, s, e.worker)
    else Crash(s, e.worker)
  }

  function Run(hash: string -> string, s: State, schedule: seq<Event>): State
    decreases |schedule|
  {
    if schedule == [] then s else Run(hash, Next(hash, s, schedule[0]), schedule[1..])
  }

  function Start(db: Db, passwords: seq<string>): State {
    State(db, seq(|passwords|, i requires 0 <= i < |passwords| => Worker(passwords[i], Checking)), None)
  }

  // ---- the invariant ----------------------------------------------------------------

  predicate WorkerOk(hash: string -> string, db0: Db, s: State, i: nat)
    requires i < |s.workers|
  {
    var w := s.workers[i];
    && (w.pc.Committing? <==> s.db.pending.Some? && s.db.pending.value.0 == i)
    && (w.pc.Committing? ==> s.db.pending == Some((i, hash(w.password))) && s.db.row.None?)
    && (w.pc.Committed? || (w.pc.Ended? && w.pc.result.Some?) ==> s.winner == Some(i))
    && (w.pc.Ended? && w.pc.result.Some? ==> w.pc.result.value == w.password)
    && (w.pc.RollingBack? || w.pc == Ended(None) ==> LiveAdmin(s.db) || s.db.row.Some?)
    && (LiveAdmin(db0) ==> w.pc.Checking? || w.pc == Ended(None) || w.pc.Crashed?)
  }

  predicate Sound(hash: string -> string, db0: Db, s: State) {
    && s.db.otherAdmin == db0.otherAdmin
    && (forall i :: 0 <= i < |s.workers| ==> WorkerOk(hash, db0, s, i))
    && (s.db.pending.Some? ==> s.db.pending.value.0 < |s.workers|)
    && (s.winner.None? ==> s.db.row == db0.row)
    && (s.winner.Some? ==>
          && s.winner.value < |s.workers| && db0.row.None? && !LiveAdmin(db0)
          && s.db.row == Some(Row(hash(s.workers[s.winner.value].password), true, true))
          && var pc := s.workers[s.winner.value].pc;
             pc.Committed? || pc.Crashed? || (pc.Ended? && pc.result.Some?))
  }

  lemma StartSound(hash: string -> string, db: Db, passwords: seq<string>)
    requires db.pending.None?
    ensures Sound(hash, db, Start(db, passwords))
  {
  }

  lemma StatementKeeps(hash: string -> string, db0: Db, s: State, i: nat)
    requires Sound(hash, db0, s) && i < |s.workers|
    ensures Sound(hash, db0, Statement(hash, s, i))
  {
    var s' := Statement(hash, s, i);
    assert WorkerOk(hash, db0, s, i);
    forall k | 0 <= k < |s'.workers| ensures WorkerOk(hash, db0, s', k) {
      assert WorkerOk(hash, db0, s, k);
    }
  }

  lemma CrashKeeps(hash: string -> string, db0: Db, s: State, i: nat)
    requires Sound(hash, db0, s) && i < |s.workers|
    ensures Sound(hash, db0, Crash(s, i))
  {
    var s' := Crash(s, i);
    assert WorkerOk(hash, db0, s, i);
    forall k | 0 <= k < |s'.workers| ensures WorkerOk(hash, db0, s', k) {
      assert WorkerOk(hash, db0, s, k);
    }
  }

  lemma {:induction false} RunKeeps(hash: string -> string, db0: Db, s: State, schedule: seq<Event>)
    requires Sound(hash, db0, s)
    ensures Sound(hash, db0, Run(hash, s, schedule)) && Passwords(Run(hash, s, schedule)) == Passwords(s)
    decreases |schedule|
  {
    if schedule != [] {
      var e := schedule[0];
      if e.worker < |s.workers| {
        if e.Runs? {
          StatementKeeps(hash, db0, s, e.worker);
        } else {
          CrashKeeps(hash, db0, s, e.worker);
        }
      }
      assert Passwords(Next(hash, s, e)) == Passwords(s);
      RunKeeps(hash, db0, Next(hash, s, e), schedule[1..]);
    }
  }

  function Passwords(s: State): seq<string> {
    seq(|s.workers|, i requires 0 <= i < |s.workers| => s.workers[i].password)
  }

  predicate Returns(w: Worker) {
    w.pc.Ended? && w.pc.result.Some?
  }

  /** At most one worker returns a password; it is the password behind the committed row,
      which is a live admin; and no worker returns one when a live admin was there. */
  lemma AtMostOnePassword(hash: string -> string, db: Db, passwords: seq<string>, schedule: seq<Event>)
    requires db.pending.None?
    ensures var end := Run(hash, Start(db, passwords), schedule);
            && |end.workers| == |passwords|
            && (forall i, k ::
                  0 <= i < |passwords| && 0 <= k < |passwords| && Returns(end.workers[i]) && Returns(end.workers[k]) ==>
                    i == k)
            && (forall i :: 0 <= i < |passwords| && Returns(end.workers[i]) ==>
                  && end.workers[i].pc.result == Some(passwords[i])
                  && end.db.row == Some(Row(hash(passwords[i]), true, true)))
            && (LiveAdmin(db) ==> end.db.row == db.row && forall i :: 0 <= i < |passwords| ==> !Returns(end.workers[i]))
  {
    StartSound(hash, db, passwords);
    RunKeeps(hash, db, Start(db, passwords), schedule);
    var end := Run(hash, Start(db, passwords), schedule);
    assert |Passwords(end)| == |Passwords(Start(db, passwords))|;
    forall i | 0 <= i < |passwords| ensures end.workers[i].password == passwords[i] {
      assert Passwords(end)[i] == Passwords(Start(db, passwords))[i];
    }
    forall i | 0 <= i < |passwords| && Returns(end.workers[i])
      ensures end.winner == Some(i) && end.workers[i].pc.result.value == passwords[i]
    {
      assert WorkerOk(hash, db, end, i);
    }
  }

  /** Once a worker has ended without a crash, a live admin exists, unless at the start
      there was none and another kind of row had the configured address: then no run
      creates one. */
  lemma AdminAfterRun(hash: string -> string, db: Db, passwords: seq<string>, schedule: seq<Event>, i: nat)
    requires db.pending.None? && i < |Run(hash, Start(db, passwords), schedule).workers|
    requires Run(hash, Start(db, passwords), schedule).workers[i].pc.Ended?
    ensures LiveAdmin(Run(hash, Start(db, passwords), schedule).db) <==> db.row.None? || LiveAdmin(db)
  {
    StartSound(hash, db, passwords);
    RunKeeps(hash, db, Start(db, passwords), schedule);
    assert WorkerOk(hash, db, Run(hash, Start(db, passwords), schedule), i);
  }

  /** At every moment of every run: a row that is there stays as it is, so when it is no live
      admin and there is no other, none ever comes to be. */
  lemma TakenAddressNeverAdmin(hash: string -> string, db: Db, passwords: seq<string>, schedule: seq<Event>)
    requires db.pending.None? && db.row.Some?
    ensures var end := Run(hash, Start(db, passwords), schedule).db;
            end.row == db.row && (LiveAdmin(end) <==> LiveAdmin(db))
  {
    StartSound(hash, db, passwords);
    RunKeeps(hash, db, Start(db, passwords), schedule);
  }

  /** An admin is created only at a free address and with no other live admin; and then, once
      a worker has ended without a crash, with the password of one of the workers. */
  lemma CreatedExactly(hash: string -> string, db: Db, passwords: seq<string>, schedule: seq<Event>)
    requires db.pending.None?
    ensures var end := Run(hash, Start(db, passwords), schedule);
            && |end.workers| == |passwords|
            && (db.otherAdmin || db.row.Some? ==> end.db.row == db.row && forall w :: w in end.workers ==> !Returns(w))
            && (!db.otherAdmin && db.row.None? && (exists w :: w in end.workers && w.pc.Ended?) ==>
                  exists i :: 0 <= i < |passwords| && end.db.row == Some(Row(hash(passwords[i]), true, true)))
  {
    StartSound(hash, db, passwords);
    RunKeeps(hash, db, Start(db, passwords), schedule);
    var end := Run(hash, Start(db, passwords), schedule);
    assert |Passwords(end)| == |Passwords(Start(db, passwords))|;
    forall w | w in end.workers && Returns(w) ensures end.winner.Some? {
      var i :| 0 <= i < |end.workers| && end.workers[i] == w;
      assert WorkerOk(hash, db, end, i);
    }
    if w :| w in end.workers && w.pc.Ended? {
      var i :| 0 <= i < |end.workers| && end.workers[i] == w;
      assert WorkerOk(hash, db, end, i);
      if end.winner.Some? {
        assert Passwords(end)[end.winner.value] == Passwords(Start(db, passwords))[end.winner.value];
      }
    }
  }

  /** What a worker has returned, it has returned: nothing that happens later changes it. */
  lemma {:induction false} EndedStays(hash: string -> string, s: State, schedule: seq<Event>, i: nat)
    requires i < |s.workers| && s.workers[i].pc.Ended?
    ensures i < |Run(hash, s, schedule).workers| && Run(hash, s, schedule).workers[i] == s.workers[i]
    decreases |schedule|
  {
    if schedule != [] {
      EndedStays(hash, Next(hash, s, schedule[0]), schedule[1..], i);
    }
  }

  /** When every worker has stopped, the password of a created admin is known to someone
      exactly if the worker that committed it did not crash before returning. */
  lemma PasswordLostExactly(hash: string -> string, db: Db, passwords: seq<string>, schedule: seq<Event>)
    requires db.pending.None?
    requires forall w :: w in Run(hash, Start(db, passwords), schedule).workers ==> w.pc.Ended? || w.pc.Crashed?
    ensures var end := Run(hash, Start(db, passwords), schedule);
            && (end.db.row == db.row <==> end.winner.None?)
            && (end.winner.Some? ==>
                  && end.winner.value < |end.workers|
                  && ((exists w :: w in end.workers && Returns(w)) <==> !end.workers[end.winner.value].pc.Crashed?))
  {
    StartSound(hash, db, passwords);
    RunKeeps(hash, db, Start(db, passwords), schedule);
    var end := Run(hash, Start(db, passwords), schedule);
    if end.winner.Some? {
      var w := end.workers[end.winner.value];
      assert w in end.workers;
      if other :| other in end.workers && Returns(other) {
        var i :| 0 <= i < |end.workers| && end.workers[i] == other;
        assert WorkerOk(hash, db, end, i);
      }
    }
  }

  // ---- one worker, as the code runs it ------------------------------------------------

  lemma {:induction false} RunOn(hash: string -> string, s: State, first: seq<Event>, second: seq<Event>)
    ensures Run(hash, s, first + second) == Run(hash, Run(hash, s, first), second)
    decreases |first|
  {
    if first == [] {
      assert first + second == second;
    } else {
      RunOn(hash, Next(hash, s, first[0]), first[1..], second);
      assert (first + second)[1..] == first[1..] + second;
    }
  }

  /** Steps that are not worker `i`'s own; it may crash meanwhile. */
  predicate Elsewhere(schedule: seq<Event>, i: nat) {
    forall e :: e in schedule && e.worker == i ==> e.Crashes?
  }

  lemma {:induction false} ElsewhereLeaves(hash: string -> string, s: State, schedule: seq<Event>, i: nat)
    requires i < |s.workers| && Elsewhere(schedule, i)
    ensures var s' := Run(hash, s, schedule);
            |s'.workers| == |s.workers| && (s'.workers[i] == s.workers[i] || s'.workers[i].pc.Crashed?)
    decreases |schedule|
  {
    if schedule != [] {
      ElsewhereLeaves(hash, Next(hash, s, schedule[0]), schedule[1..], i);
    }
  }

  function Turns(meanwhile: nat -> seq<Event>, n: nat): seq<Event> {
    if n == 0 then [] else Turns(meanwhile, n - 1) + meanwhile(n - 1)
  }

  /** The statements of worker `i`, after `w` turns of waiting for its insert, with what the
      others do between them, for each way it can end up. */
  predicate Woven(i: nat, meanwhile: nat -> seq<Event>, w: nat, patience: nat, schedule: seq<Event>, pc: Pc) {
    var waited := [Runs(i)] + Turns(meanwhile, w);
    var inserted := waited + [Runs(i)] + meanwhile(w);
    var committed := inserted + [Runs(i)] + meanwhile(w + 1);
    w <= patience + 1 &&
    match pc
    case Ended(None) => schedule == if w == 0 then [Runs(i)] else inserted + [Runs(i)]
    case Ended(Some(_)) => schedule == committed + [Runs(i)]
    case Inserting => w == patience + 1 && schedule == waited
    case Crashed => schedule == waited || schedule == inserted || schedule == committed
    case _ => false
  }

  /** After so many turns another transaction that has inserted the address is open. */
  predicate Held(hash: string -> string, s: State, i: nat, meanwhile: nat -> seq<Event>, turns: nat) {
    Run(hash, s, [Runs(i)] + Turns(meanwhile, turns)).db.pending.Some?
  }

  /** It was so after each of the first turns but the last. */
  predicate HeldTill(hash: string -> string, s: State, i: nat, meanwhile: nat -> seq<Event>, turns: nat) {
    forall v :: 1 <= v < turns ==> Held(hash, s, i, meanwhile, v)
  }

  lemma HeldOnceMore(hash: string -> string, s: State, i: nat, meanwhile: nat -> seq<Event>, turns: nat)
    requires HeldTill(hash, s, i, meanwhile, turns)
    requires Run(hash, s, [Runs(i)] + Turns(meanwhile, turns)).db.pending.Some?
    ensures HeldTill(hash, s, i, meanwhile, turns + 1)
  {
    assert Held(hash, s, i, meanwhile, turns);
  }

  /** The database and the workers on it. */
  class Deployment {
    const hash: string -> string
    ghost const start: Db
    var db: Db
    var workers: seq<Worker>
    var winner: Option<nat>

    constructor (hash: string -> string, db: Db, passwords: seq<string>)
      requires db.pending.None?
      ensures this.hash == hash && start == db && View() == Start(db, passwords) && Valid()
    {
      this.hash, this.start, this.db := hash, db, db;
      workers := Start(db, passwords).workers;
      winner := None;
      new;
      StartSound(hash, db, passwords);
    }

    function View(): State
      reads this
    {
      State(db, workers, winner)
    }

    ghost predicate Valid()
      reads this
    {
      Sound(hash, start, View())
    }

    /** What the others do while worker `i` awaits a statement. */
    method Await(i: nat, schedule: seq<Event>) returns (crashed: bool)
      requires Valid() && i < |workers| && Elsewhere(schedule, i)
      modifies this
      ensures Valid() && View() == Run(hash, old(View()), schedule)
      ensures |workers| == |old(workers)| && (crashed <==> workers[i].pc.Crashed?) &&
              (!crashed ==> workers[i] == old(workers)[i])
    {
      RunKeeps(hash, start, View(), schedule);
      ElsewhereLeaves(hash, View(), schedule, i);
      var next := Run(hash, View(), schedule);
      db, workers, winner := next.db, next.workers, next.winner;
      crashed := workers[i].pc.Crashed?;
    }

    /** The worker's statements one by one, with any steps of the others in between; the
        insert waits while another worker's is open, here for at most `patience` turns.
        Whatever happens, it is a run of the machine in which this worker ended with the
        result returned, or crashed, or is still waiting. */
    method EnsureFirstRunAdmin(i: nat, meanwhile: nat -> seq<Event>, patience: nat)
      returns (r: Option<string>, ghost schedule: seq<Event>, w: nat)
      requires Valid() && i < |workers| && workers[i].pc.Checking?
      requires forall n :: Elsewhere(meanwhile(n), i)
      modifies this
      ensures Valid() && View() == Run(hash, old(View()), schedule) && |workers| == |old(workers)|
      ensures workers[i].pc == Ended(r) ||
              (r.None? && (workers[i].pc.Crashed? || (workers[i].pc.Inserting? && db.pending.Some?)))
      ensures Woven(i, meanwhile, w, patience, schedule, workers[i].pc) && (w == 0 <==> old(LiveAdmin(db)))
      ensures HeldTill(hash, old(View()), i, meanwhile, w)
    {
      r, schedule, w := None, [], 0;
      ghost var s0 := View();
      var password := workers[i].password;
      if LiveAdmin(db) {
        schedule := Advance(i, s0, schedule);
        workers := workers[i := Worker(password, Ended(None))];
        return;
      }
      schedule := Advance(i, s0, schedule);
      workers := workers[i := Worker(password, Inserting)];
      var crashed;
      crashed, w, schedule := WaitForInsert(i, meanwhile, patience, s0, schedule);
      if crashed || db.pending.Some? {
        return;
      }
      r, schedule := InsertAndCommit(i, s0, schedule, meanwhile, w, patience);
    }

    method WaitATurn(i: nat, meanwhile: nat -> seq<Event>, n: nat, ghost s0: State, ghost before: seq<Event>)
      returns (crashed: bool, ghost schedule: seq<Event>)
      requires Valid() && i < |workers| && Elsewhere(meanwhile(n), i)
      requires before == [Runs(i)] + Turns(meanwhile, n) && View() == Run(hash, s0, before)
      modifies this
      ensures Valid() && View() == Run(hash, s0, schedule) && schedule == [Runs(i)] + Turns(meanwhile, n + 1)
      ensures |workers| == |old(workers)| && (crashed <==> workers[i].pc.Crashed?) &&
              (!crashed ==> workers[i] == old(workers)[i])
    {
      crashed := Await(i, meanwhile(n));
      RunOn(hash, s0, before, meanwhile(n));
      schedule := before + meanwhile(n);
      assert Turns(meanwhile, n + 1) == Turns(meanwhile, n) + meanwhile(n);
    }

    /** The insert waits as long as another transaction has inserted the address, here for
        at most `patience` turns after the first. */
    method WaitForInsert(i: nat, meanwhile: nat -> seq<Event>, patience: nat, ghost s0: State,
                         ghost before: seq<Event>)
      returns (crashed: bool, n: nat, ghost schedule: seq<Event>)
      requires Valid() && i < |workers| && workers[i].pc.Inserting? && forall k :: Elsewhere(meanwhile(k), i)
      requires before == [Runs(i)] && View() == Run(hash, s0, before)
      modifies this
      ensures Valid() && View() == Run(hash, s0, schedule) && |workers| == |old(workers)|
      ensures 1 <= n <= patience + 1 && schedule == [Runs(i)] + Turns(meanwhile, n)
      ensures crashed <==> workers[i].pc.Crashed?
      ensures !crashed ==> workers[i] == old(workers)[i] && (db.pending.Some? ==> n == patience + 1)
      ensures HeldTill(hash, s0, i, meanwhile, n)
    {
      crashed, schedule := WaitATurn(i, meanwhile, 0, s0, before);
      n := 1;
      while db.pending.Some? && n <= patience && !crashed
        invariant Valid() && |workers| == |old(workers)| && View() == Run(hash, s0, schedule)
        invariant 1 <= n <= patience + 1 && schedule == [Runs(i)] + Turns(meanwhile, n)
        invariant HeldTill(hash, s0, i, meanwhile, n)
        invariant crashed <==> workers[i].pc.Crashed?
        invariant !crashed ==> workers[i] == old(workers)[i]
        decreases patience - n
      {
        HeldOnceMore(hash, s0, i, meanwhile, n);
        crashed, schedule := WaitATurn(i, meanwhile, n, s0, schedule);
        n := n + 1;
      }
    }

    /** The next statement of worker `i` appended to the schedule. */
    ghost method Advance(i: nat, s0: State, schedule: seq<Event>) returns (schedule': seq<Event>)
      requires Valid() && i < |workers| && View() == Run(hash, s0, schedule)
      ensures schedule' == schedule + [Runs(i)] && Run(hash, s0, schedule') == Statement(hash, View(), i)
      ensures Sound(hash, start, Statement(hash, View(), i))
    {
      RunOn(hash, s0, schedule, [Runs(i)]);
      StatementKeeps(hash, start, View(), i);
      schedule' := schedule + [Runs(i)];
      assert Run(hash, View(), [Runs(i)]) == Run(hash, Next(hash, View(), Runs(i)), []);
    }

    method InsertAndCommit(i: nat, ghost s0: State, ghost before: seq<Event>, meanwhile: nat -> seq<Event>, n: nat,
                           ghost patience: nat)
      returns (r: Option<string>, ghost schedule: seq<Event>)
      requires Valid() && i < |workers| && workers[i].pc.Inserting? && db.pending.None?
      requires View() == Run(hash, s0, before) && forall k :: Elsewhere(meanwhile(k), i)
      requires 1 <= n <= patience + 1 && before == [Runs(i)] + Turns(meanwhile, n)
      modifies this
      ensures Valid() && View() == Run(hash, s0, schedule) && |workers| == |old(workers)|
      ensures Woven(i, meanwhile, n, patience, schedule, workers[i].pc)
      ensures workers[i].pc == Ended(r) || (r.None? && workers[i].pc.Crashed?)
    {
      var password := workers[i].password;
      r := None;
      schedule := Advance(i, s0, before);
      var inserted := db.row.None?;
      if inserted {
        db := db.(pending := Some((i, hash(password))));
      }
      workers := workers[i := Worker(password, if inserted then Committing else RollingBack)];
      var crashed := Await(i, meanwhile(n));
      RunOn(hash, s0, schedule, meanwhile(n));
      schedule := schedule + meanwhile(n);
      if crashed {
        return;
      }
      if !inserted {
        schedule := Advance(i, s0, schedule);
        workers := workers[i := Worker(password, Ended(None))];
        return;
      }
      r, schedule := CommitAndReturn(i, s0, schedule, meanwhile(n + 1));
    }

    method CommitAndReturn(i: nat, ghost s0: State, ghost before: seq<Event>, meanwhile: seq<Event>)
      returns (r: Option<string>, ghost schedule: seq<Event>)
      requires Valid() && i < |workers| && workers[i].pc.Committing?
      requires View() == Run(hash, s0, before) && Elsewhere(meanwhile, i)
      modifies this
      ensures Valid() && View() == Run(hash, s0, schedule) && |workers| == |old(workers)|
      ensures workers[i].pc == Ended(r) || (r.None? && workers[i].pc.Crashed?)
      ensures schedule == before + [Runs(i)] + meanwhile + if r.Some? then [Runs(i)] else []
      ensures r.None? ==> workers[i].pc.Crashed?
    {
      var password := workers[i].password;
      r := None;
      schedule := Advance(i, s0, before);
      assert WorkerOk(hash, start, View(), i);
      db := Db(Some(Row(db.pending.value.1, true, true)), db.otherAdmin, None);
      workers, winner := workers[i := Worker(password, Committed)], Some(i);
      var crashed := Await(i, meanwhile);
      RunOn(hash, s0, schedule, meanwhile);
      schedule := schedule + meanwhile;
      if crashed {
        return;
      }
      schedule := Advance(i, s0, schedule);
      workers := workers[i := Worker(password, Ended(Some(password)))];
      r := Some(password);
    }
  }
}
