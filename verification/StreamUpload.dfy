/** Streaming an upload of unknown length to the object store in parts of fixed size. */
module StreamUpload {
  type Bytes = seq<bv8>

  const MULTIPART_PART_SIZE: nat := 8 * 1024 * 1024

  // ---- the object store -------------------------------------------------------

  datatype PartRef = PartRef(number: nat, etag: string)

  datatype Request = Create | Part(number: nat, body: Bytes) | Complete(parts: seq<PartRef>) | Abort

  datatype Attempt = Attempt(request: Request, ok: bool)

  /** Each entry says whether its call failed. */
  predicate Faithful(fails: nat -> bool, log: seq<Attempt>) {
    log == [] || (Faithful(fails, log[..|log| - 1]) && log[|log| - 1].ok == !fails(|log| - 1))
  }

  lemma {:induction false} FaithfulAt(fails: nat -> bool, log: seq<Attempt>, i: nat)
    requires Faithful(fails, log) && i < |log|
    ensures log[i].ok == !fails(i)
    decreases |log|
  {
    if i < |log| - 1 {
      FaithfulAt(fails, log[..|log| - 1], i);
    }
  }

  /** Every call is recorded; any call may fail. */
  class ObjectStore {
    const fails: nat -> bool
    const etag: nat -> string
    var log: seq<Attempt>

    ghost predicate Valid()
      reads this
    {
      Faithful(fails, log)
    }

    constructor (fails: nat -> bool, etag: nat -> string)
      ensures Valid() && this.fails == fails && this.etag == etag && log == []
    {
      this.fails, this.etag := fails, etag;
      log := [];
    }

    method Send(request: Request) returns (ok: bool, tag: string)
      requires Valid()
      modifies this
      ensures Valid()
      ensures log == old(log) + [Attempt(request, ok)] && ok == !fails(|old(log)|) && tag == etag(|old(log)|)
    {
      ok, tag := !fails(|log|), etag(|log|);
      assert (log + [Attempt(request, ok)])[..|log|] == log;
      log := log + [Attempt(request, ok)];
    }

    /** The failure of an abort is swallowed. */
    method AbortSafe()
      requires Valid()
      modifies this
      ensures Valid()
      ensures log == old(log) + [Attempt(Abort, !fails(|old(log)|))]
    {
      var ok, tag := Send(Abort);
    }
  }

  // ---- the source of chunks ---------------------------------------------------

  /** What the iterator does next; it ends after the last event. */
  datatype Event = Chunk(bytes: Bytes) | Raises | RaisesTooLarge

  datatype Result =
    | Stored(size: nat, sha256: string)
    | TooLarge(limit: int, received: nat)
    | SourceTooLarge
    | InternalError

  function Content(events: seq<Event>): Bytes {
    if events == [] then []
    else
      var last := events[|events| - 1];
      Content(events[..|events| - 1]) + if last.Chunk? then last.bytes else []
  }

  /** The content is that of the chunks, one after the other. */
  lemma {:induction false} ContentInOrder(events: seq<Event>, more: seq<Event>, bytes: Bytes)
    ensures Content(events + more) == Content(events) + Content(more) && Content([Chunk(bytes)]) == bytes
    decreases |more|
  {
    assert [Chunk(bytes)][..0] == [];
    if more == [] {
      assert events + more == events;
    } else {
      ContentInOrder(events, more[..|more| - 1], bytes);
      assert (events + more)[..|events + more| - 1] == events + more[..|more| - 1];
    }
  }

  /** Before event `n` the source has not raised and the cap has not been passed. */
  predicate Within(events: seq<Event>, max: int, n: nat)
    requires n <= |events|
  {
    (forall i :: 0 <= i < n ==> events[i].Chunk?) && |Content(events[..n])| <= max
  }

  datatype Verdict = Fits | Exceeds(received: nat) | SourceRaises | SourceRaisesTooLarge

  /** What event `n` does to a stream that was fine before it. */
  function VerdictAt(events: seq<Event>, max: int, n: nat): Verdict
    requires n <= |events|
  {
    if n == |events| then Fits
    else match events[n]
      case Raises => SourceRaises
      case RaisesTooLarge => SourceRaisesTooLarge
      case Chunk(_) => if |Content(events[..n + 1])| > max then Exceeds(|Content(events[..n + 1])|) else Fits
  }

  /** Event `n` is where the stream stops: its end, an error, or the first chunk that
      takes it over the cap. */
  predicate StopsAt(events: seq<Event>, max: int, n: nat) {
    && n <= |events| && Within(events, max, n)
    && (n == |events| || !VerdictAt(events, max, n).Fits?)
  }

  // ---- the re-chunking as a function of the whole body --------------------------

  function FullParts(data: Bytes): seq<Bytes> {
    if |data| < MULTIPART_PART_SIZE then []
    else [data[..MULTIPART_PART_SIZE]] + FullParts(data[MULTIPART_PART_SIZE..])
  }

  function Rest(data: Bytes): Bytes {
    if |data| < MULTIPART_PART_SIZE then data else Rest(data[MULTIPART_PART_SIZE..])
  }

  function Bodies(data: Bytes): seq<Bytes> {
    FullParts(data) + if Rest(data) != [] || FullParts(data) == [] then [Rest(data)] else []
  }

  function Joined(parts: seq<Bytes>): Bytes {
    if parts == [] then [] else parts[0] + Joined(parts[1..])
  }

  lemma {:induction false} JoinedAppend(parts: seq<Bytes>, last: Bytes)
    ensures Joined(parts + [last]) == Joined(parts) + last
  {
    if parts == [] {
      assert parts + [last] == [last] && Joined([last]) == last + Joined([]);
    } else {
      JoinedAppend(parts[1..], last);
      assert (parts + [last])[1..] == parts[1..] + [last];
    }
  }

  lemma {:induction false} FullPartsJoin(data: Bytes)
    ensures Joined(FullParts(data)) + Rest(data) == data
    decreases |data|
  {
    if |data| >= MULTIPART_PART_SIZE {
      var head, tail := data[..MULTIPART_PART_SIZE], data[MULTIPART_PART_SIZE..];
      FullPartsJoin(tail);
      var full := FullParts(tail);
      assert FullParts(data) == [head] + full && ([head] + full)[1..] == full;
      assert head + Joined(full) + Rest(tail) == head + (Joined(full) + Rest(tail));
    }
  }

  lemma {:induction false} FullPartsShape(data: Bytes)
    ensures Joined(FullParts(data)) + Rest(data) == data && |Rest(data)| < MULTIPART_PART_SIZE
    ensures forall k :: 0 <= k < |FullParts(data)| ==> |FullParts(data)[k]| == MULTIPART_PART_SIZE
    ensures |data| == |FullParts(data)| * MULTIPART_PART_SIZE + |Rest(data)|
    decreases |data|
  {
    FullPartsJoin(data);
    if |data| >= MULTIPART_PART_SIZE {
      FullPartsShape(data[MULTIPART_PART_SIZE..]);
    }
  }

  /** The parts make up the body; all but the last are full; their number is the size of
      the body over the part size, rounded up, but one for the empty body. */
  lemma BodiesShape(data: Bytes)
    ensures Joined(Bodies(data)) == data
    ensures forall k :: 0 <= k < |Bodies(data)| - 1 ==> |Bodies(data)[k]| == MULTIPART_PART_SIZE
    ensures |Bodies(data)| ==
            if data == [] then 1 else (|data| + MULTIPART_PART_SIZE - 1) / MULTIPART_PART_SIZE
    ensures |Bodies(data)[|Bodies(data)| - 1]| <= MULTIPART_PART_SIZE
    ensures data != [] ==> |Bodies(data)[|Bodies(data)| - 1]| > 0
  {
    FullPartsShape(data);
    var full, rest := FullParts(data), Rest(data);
    if rest != [] || full == [] {
      JoinedAppend(full, rest);
    } else {
      assert Bodies(data) == full && Joined(full) == Joined(full) + rest;
    }
  }

  /** The shape determines the parts: no other cutting of the body has it. */
  lemma {:induction false} BodiesUnique(data: Bytes, parts: seq<Bytes>)
    requires parts != [] && Joined(parts) == data
    requires forall k :: 0 <= k < |parts| - 1 ==> |parts[k]| == MULTIPART_PART_SIZE
    requires |parts[|parts| - 1]| <= MULTIPART_PART_SIZE && (data != [] ==> |parts[|parts| - 1]| > 0)
    ensures parts == Bodies(data)
    decreases |parts|
  {
    if |parts| == 1 {
      assert parts[1..] == [] && data == parts[0];
      if |data| == MULTIPART_PART_SIZE {
        assert data[..MULTIPART_PART_SIZE] == data && data[MULTIPART_PART_SIZE..] == [];
        assert FullParts(data) == [data] + FullParts([]) && Rest(data) == Rest([]);
      }
      assert parts == [data];
    } else {
      var tail := parts[1..];
      assert data == parts[0] + Joined(tail);
      assert data[..MULTIPART_PART_SIZE] == parts[0] && data[MULTIPART_PART_SIZE..] == Joined(tail);
      LastPartCounts(tail);
      BodiesUnique(Joined(tail), tail);
      assert Bodies(data) == [parts[0]] + Bodies(Joined(tail));
    }
  }

  lemma {:induction false} LastPartCounts(parts: seq<Bytes>)
    requires parts != []
    ensures |Joined(parts)| >= |parts[|parts| - 1]|
  {
    if |parts| > 1 {
      LastPartCounts(parts[1..]);
    }
  }

  /** Cutting a longer body starts from what the shorter one left over. */
  lemma {:induction false} FullPartsAppend(data: Bytes, more: Bytes)
    ensures FullParts(data + more) == FullParts(data) + FullParts(Rest(data) + more)
    ensures Rest(data + more) == Rest(Rest(data) + more)
    decreases |data|
  {
    if |data| >= MULTIPART_PART_SIZE {
      var tail := data[MULTIPART_PART_SIZE..];
      FullPartsAppend(tail, more);
      assert (data + more)[MULTIPART_PART_SIZE..] == tail + more;
      assert (data + more)[..MULTIPART_PART_SIZE] == data[..MULTIPART_PART_SIZE];
    }
  }

  // ---- the upload ---------------------------------------------------------------

  /** The calls that upload these bodies as parts 1, 2, ... */
  function PartCalls(bodies: seq<Bytes>): seq<Attempt> {
    seq(|bodies|, i requires 0 <= i < |bodies| => Attempt(Part(i + 1, bodies[i]), true))
  }

  /** The part list of the completion: each part's number with the tag its upload returned. */
  function Refs(etag: nat -> string, first: nat, n: nat): seq<PartRef> {
    seq(n, i requires 0 <= i => PartRef(i + 1, etag(first + i)))
  }

  /** An upload in flight: created, then exactly these bodies uploaded. */
  ghost predicate InFlight(store: ObjectStore, start: seq<Attempt>, bodies: seq<Bytes>)
    reads store
  {
    store.log == start + [Attempt(Create, true)] + PartCalls(bodies)
  }

  method UploadPart(store: ObjectStore, body: Bytes, parts: seq<PartRef>, ghost start: seq<Attempt>,
                    ghost bodies: seq<Bytes>)
    returns (ok: bool, parts': seq<PartRef>)
    requires InFlight(store, start, bodies) && parts == Refs(store.etag, |start| + 1, |bodies|)
    requires store.Valid()
    modifies store
    ensures store.Valid()
    ensures ok ==> InFlight(store, start, bodies + [body]) && parts' == Refs(store.etag, |start| + 1, |bodies| + 1)
    ensures !ok ==> store.log == old(store.log) + [Attempt(Part(|bodies| + 1, body), false)]
  {
    var tag;
    ok, tag := store.Send(Part(|parts| + 1, body));
    parts' := if ok then parts + [PartRef(|parts| + 1, tag)] else parts;
    assert PartCalls(bodies + [body]) == PartCalls(bodies) + [Attempt(Part(|bodies| + 1, body), true)];
  }

  /** `done` are the parts of `buffer` cut off so far and `rest` is what is left of it. */
  predicate Cut(buffer: Bytes, done: seq<Bytes>, rest: Bytes) {
    FullParts(buffer) == done + FullParts(rest) && Rest(buffer) == Rest(rest)
  }

  lemma NextPart(buffer: Bytes, done: seq<Bytes>, rest: Bytes, bodies: seq<Bytes>)
    requires Cut(buffer, done, rest) && |rest| >= MULTIPART_PART_SIZE
    ensures var body, tail := rest[..MULTIPART_PART_SIZE], rest[MULTIPART_PART_SIZE..];
            && |done| < |FullParts(buffer)| && FullParts(buffer)[..|done|] == done && FullParts(buffer)[|done|] == body
            && Cut(buffer, done + [body], tail)
            && bodies + done + [body] == bodies + (done + [body])
  {
    var body, tail := rest[..MULTIPART_PART_SIZE], rest[MULTIPART_PART_SIZE..];
    assert FullParts(rest) == [body] + FullParts(tail) && Rest(rest) == Rest(tail);
    assert done + ([body] + FullParts(tail)) == (done + [body]) + FullParts(tail);
  }

  lemma CutToTheEnd(buffer: Bytes, done: seq<Bytes>, rest: Bytes)
    requires Cut(buffer, done, rest) && |rest| < MULTIPART_PART_SIZE
    ensures done == FullParts(buffer) && rest == Rest(buffer)
  {
    assert done + [] == done;
  }

  /** One turn of the inner loop; a failing part is the one behind those in `done`. */
  method SendNext(store: ObjectStore, ghost whole: Bytes, buffer: Bytes, parts: seq<PartRef>, ghost start: seq<Attempt>,
                  ghost bodies: seq<Bytes>, ghost done: seq<Bytes>)
    returns (ok: bool, buffer': Bytes, parts': seq<PartRef>, ghost done': seq<Bytes>)
    requires store.Valid() && Cut(whole, done, buffer) && |buffer| >= MULTIPART_PART_SIZE
    requires InFlight(store, start, bodies + done) && parts == Refs(store.etag, |start| + 1, |bodies + done|)
    modifies store
    ensures store.Valid() && |buffer'| < |buffer|
    ensures ok ==> Cut(whole, done', buffer') && InFlight(store, start, bodies + done')
    ensures ok ==> parts' == Refs(store.etag, |start| + 1, |bodies + done'|)
    ensures !ok ==> done' == done && |done| < |FullParts(whole)| &&
                    FailedAt(store.log, start, bodies + FullParts(whole)[..|done|], FullParts(whole)[|done|])
  {
    NextPart(whole, done, buffer, bodies);
    var body := buffer[..MULTIPART_PART_SIZE];
    buffer', done' := buffer[MULTIPART_PART_SIZE..], done;
    ok, parts' := UploadPart(store, body, parts, start, bodies + done);
    if ok {
      done' := done + [body];
    }
  }

  /** The inner loop: upload every full part that the buffer holds. */
  method FlushFull(store: ObjectStore, buffer: Bytes, parts: seq<PartRef>, ghost start: seq<Attempt>,
                   ghost bodies: seq<Bytes>)
    returns (ok: bool, buffer': Bytes, parts': seq<PartRef>, ghost sent: nat)
    requires InFlight(store, start, bodies) && parts == Refs(store.etag, |start| + 1, |bodies|)
    requires store.Valid()
    modifies store
    ensures store.Valid()
    ensures sent <= |FullParts(buffer)| && (ok ==> sent == |FullParts(buffer)| && buffer' == Rest(buffer))
    ensures ok ==> InFlight(store, start, bodies + FullParts(buffer))
    ensures ok ==> parts' == Refs(store.etag, |start| + 1, |bodies| + |FullParts(buffer)|)
    ensures !ok ==>
              && sent < |FullParts(buffer)|
              && FailedAt(store.log, start, bodies + FullParts(buffer)[..sent], FullParts(buffer)[sent])
  {
    ok, buffer', parts', sent := true, buffer, parts, 0;
    ghost var done: seq<Bytes> := [];
    assert bodies + done == bodies && done + FullParts(buffer) == FullParts(buffer);
    while |buffer'| >= MULTIPART_PART_SIZE
      invariant store.Valid() && Cut(buffer, done, buffer')
      invariant InFlight(store, start, bodies + done)
      invariant parts' == Refs(store.etag, |start| + 1, |bodies + done|)
      decreases |buffer'|
    {
      ok, buffer', parts', done := SendNext(store, buffer, buffer', parts', start, bodies, done);
      if !ok {
        sent := |done|;
        return;
      }
    }
    sent := |done|;
    CutToTheEnd(buffer, done, buffer');
  }

  /** The upload of the next part failed. */
  ghost predicate FailedAt(log: seq<Attempt>, start: seq<Attempt>, bodies: seq<Bytes>, body: Bytes) {
    log == start + [Attempt(Create, true)] + PartCalls(bodies) + [Attempt(Part(|bodies| + 1, body), false)]
  }

  // ---- what an upload comes to ----------------------------------------------------

  /** One of the first `bound` parts could not be uploaded. */
  ghost predicate PartFailed(calls: seq<Attempt>, data: Bytes, bound: nat) {
    exists n: nat :: n < bound && PartFailedAt(calls, data, n)
  }

  ghost predicate PartFailedAt(calls: seq<Attempt>, data: Bytes, n: nat) {
    && n < |Bodies(data)|
    && calls == [Attempt(Create, true)] + PartCalls(Bodies(data)[..n]) + [Attempt(Part(n + 1, Bodies(data)[n]), false)]
  }

  datatype Flow = Finished | Failed | LimitPassed(received: nat) | Raised

  /** The calls of the `try` block, for a stream that stops at event `n`. */
  ghost predicate Transferred(store: ObjectStore, calls: seq<Attempt>, first: nat, events: seq<Event>, max: int,
                              n: nat, flow: Flow)
    requires StopsAt(events, max, n)
  {
    var data := Content(events[..n]);
    var verdict := VerdictAt(events, max, n);
    var all := [Attempt(Create, true)] + PartCalls(Bodies(data));
    var finish := Complete(Refs(store.etag, first + 1, |Bodies(data)|));
    match flow
    case Finished => verdict.Fits? && calls == all + [Attempt(finish, true)]
    case LimitPassed(received) =>
      && verdict == Exceeds(received)
      && calls == [Attempt(Create, true)] + PartCalls(FullParts(data)) +
                  [Attempt(Abort, !store.fails(first + 1 + |FullParts(data)|))]
    case Raised => verdict.SourceRaisesTooLarge? && calls == [Attempt(Create, true)] + PartCalls(FullParts(data))
    case Failed =>
      || calls == [Attempt(Create, false)]
      || PartFailed(calls, data, if verdict.Fits? then |Bodies(data)| else |FullParts(data)|)
      || (verdict.Fits? && calls == all + [Attempt(finish, false)])
      || (verdict.SourceRaises? && calls == [Attempt(Create, true)] + PartCalls(FullParts(data)))
  }

  lemma {:induction false} StopExists(events: seq<Event>, max: int, i: nat) returns (n: nat)
    requires i <= |events| && Within(events, max, i)
    ensures i <= n && StopsAt(events, max, n)
    decreases |events| - i
  {
    if i == |events| || !VerdictAt(events, max, i).Fits? {
      n := i;
    } else {
      n := StopExists(events, max, i + 1);
    }
  }

  /** There is one such event. */
  lemma StopUnique(events: seq<Event>, max: int, m: nat, n: nat)
    requires StopsAt(events, max, m) && StopsAt(events, max, n)
    ensures m == n
  {
    if m < n {
      PrefixGrows(events, m + 1, n);
    } else if n < m {
      PrefixGrows(events, n + 1, m);
    }
  }

  lemma {:induction false} PrefixGrows(events: seq<Event>, i: nat, n: nat)
    requires i <= n <= |events|
    ensures |Content(events[..i])| <= |Content(events[..n])|
    ensures FullParts(Content(events[..i])) <= FullParts(Content(events[..n]))
    decreases n - i
  {
    if i < n {
      PrefixGrows(events, i, n - 1);
      ContentStep(events, n - 1);
      var more := if events[n - 1].Chunk? then events[n - 1].bytes else [];
      FullPartsAppend(Content(events[..n - 1]), more);
    }
  }

  lemma ContentStep(events: seq<Event>, i: nat)
    requires i < |events|
    ensures Content(events[..i + 1]) == Content(events[..i]) + if events[i].Chunk? then events[i].bytes else []
  {
    assert events[..i + 1][..i] == events[..i];
  }

  /** A failed part of a prefix of the body is that part of the whole body. */
  lemma FailedPartOfWhole(log: seq<Attempt>, start: seq<Attempt>, data: Bytes, whole: Bytes, k: nat)
    requires FullParts(data) <= FullParts(whole) && k < |FullParts(data)|
    requires FailedAt(log, start, FullParts(data)[..k], FullParts(data)[k])
    ensures start <= log && PartFailed(log[|start|..], whole, |FullParts(whole)|)
  {
    BehindStart(log, start, FullParts(data)[..k], FullParts(data)[k]);
    assert Bodies(whole)[..k] == FullParts(data)[..k] && Bodies(whole)[k] == FullParts(data)[k];
    assert PartFailedAt(log[|start|..], whole, k);
  }

  lemma BehindStart(log: seq<Attempt>, start: seq<Attempt>, bodies: seq<Bytes>, body: Bytes)
    requires FailedAt(log, start, bodies, body)
    ensures start <= log
    ensures log[|start|..] == [Attempt(Create, true)] + PartCalls(bodies) + [Attempt(Part(|bodies| + 1, body), false)]
  {
  }

  /** The whole body as consumed, hashed and cut so far. */
  ghost predicate Consumed(store: ObjectStore, start: seq<Attempt>, data: Bytes, total: int, hashed: Bytes,
                           buffer: Bytes,
                           parts: seq<PartRef>)
    reads store
  {
    && total == |data| && hashed == data && buffer == Rest(data)
    && InFlight(store, start, FullParts(data))
    && parts == Refs(store.etag, |start| + 1, |FullParts(data)|)
  }

  /** One non-empty chunk within the cap: hash it, buffer it, upload what is full. */
  method TakeChunk(store: ObjectStore, chunk: Bytes, hashed: Bytes, buffer: Bytes, parts: seq<PartRef>,
                   ghost start: seq<Attempt>, ghost data: Bytes)
    returns (ok: bool, hashed': Bytes, buffer': Bytes, parts': seq<PartRef>, ghost k: nat)
    requires Consumed(store, start, data, |data|, hashed, buffer, parts)
    requires store.Valid()
    modifies store
    ensures store.Valid()
    ensures ok ==> Consumed(store, start, data + chunk, |data + chunk|, hashed', buffer', parts')
    ensures !ok ==> k < |FullParts(data + chunk)| &&
                    FailedAt(store.log, start, FullParts(data + chunk)[..k], FullParts(data + chunk)[k])
  {
    FullPartsAppend(data, chunk);
    hashed' := hashed + chunk;
    ghost var sent;
    ok, buffer', parts', sent := FlushFull(store, buffer + chunk, parts, start, FullParts(data));
    k := |FullParts(data)| + sent;
    if !ok {
      assert FullParts(data + chunk)[..k] == FullParts(data) + FullParts(buffer + chunk)[..sent];
    }
  }

  lemma SourceStops(store: ObjectStore, start: seq<Attempt>, events: seq<Event>, max: int, n: nat, flow: Flow)
    requires n < |events| && !events[n].Chunk? && Within(events, max, n)
    requires InFlight(store, start, FullParts(Content(events[..n])))
    requires flow == if events[n].Raises? then Failed else Raised
    ensures start <= store.log && StopsAt(events, max, n)
    ensures Transferred(store, store.log[|start|..], |start|, events, max, n, flow)
  {
    assert store.log[|start|..] == [Attempt(Create, true)] + PartCalls(FullParts(Content(events[..n])));
  }

  /** The upload of part `k` failed while chunk `i` was taken. */
  lemma ChunkFailed(store: ObjectStore, start: seq<Attempt>, events: seq<Event>, max: int, i: nat, k: nat)
    returns (n: nat)
    requires i < |events| && Within(events, max, i + 1)
    requires var full := FullParts(Content(events[..i + 1]));
             k < |full| && FailedAt(store.log, start, full[..k], full[k])
    ensures |store.log| > |start| && start <= store.log && store.log[|start|].ok && StopsAt(events, max, n)
    ensures Transferred(store, store.log[|start|..], |start|, events, max, n, Failed)
  {
    n := StopExists(events, max, i + 1);
    PrefixGrows(events, i + 1, n);
    FailedPartOfWhole(store.log, start, Content(events[..i + 1]), Content(events[..n]), k);
  }

  /** The abort on the way out, before the size error is raised. */
  method AbortHere(store: ObjectStore, ghost start: seq<Attempt>, ghost events: seq<Event>, ghost max: int,
                   ghost n: nat)
    requires n < |events| && events[n].Chunk? && Within(events, max, n) && |Content(events[..n + 1])| > max
    requires store.Valid() && InFlight(store, start, FullParts(Content(events[..n])))
    modifies store
    ensures store.Valid() && |store.log| > |start| && start <= store.log && store.log[|start|].ok &&
            StopsAt(events, max, n)
    ensures Transferred(store, store.log[|start|..], |start|, events, max, n, LimitPassed(|Content(events[..n + 1])|))
  {
    ghost var before, last := store.log, Attempt(Abort, !store.fails(|store.log|));
    store.AbortSafe();
    CallsSnoc(before, |start|, last);
    LimitPasses(store, before, start, events, max, n, last);
  }

  lemma CallsSnoc(log: seq<Attempt>, first: nat, last: Attempt)
    requires first <= |log|
    ensures (log + [last])[first..] == log[first..] + [last] && (log + [last])[first..][..|log| - first] == log[first..]
  {
  }

  lemma LimitPasses(store: ObjectStore, log: seq<Attempt>, start: seq<Attempt>, events: seq<Event>, max: int, n: nat,
                    last: Attempt)
    requires n < |events| && events[n].Chunk? && Within(events, max, n) && |Content(events[..n + 1])| > max
    requires log == start + [Attempt(Create, true)] + PartCalls(FullParts(Content(events[..n])))
    requires last == Attempt(Abort, !store.fails(|log|))
    ensures StopsAt(events, max, n)
    ensures Transferred(store, log[|start|..] + [last], |start|, events, max, n,
                        LimitPassed(|Content(events[..n + 1])|))
  {
    assert log[|start|..] == [Attempt(Create, true)] + PartCalls(FullParts(Content(events[..n])));
  }

  /** The loop over the chunks; `flow` is set when the loop is left by an exception. */
  method ConsumeAll(store: ObjectStore, events: seq<Event>, max: int, ghost start: seq<Attempt>)
    returns (flow: Flow, total: nat, hashed: Bytes, buffer: Bytes, parts: seq<PartRef>, ghost n: nat)
    requires max > 0 && store.log == start + [Attempt(Create, true)]
    requires store.Valid()
    modifies store
    ensures store.Valid()
    ensures StopsAt(events, max, n)
    ensures |store.log| > |start| && store.log[|start|].ok
    ensures flow.Finished? ==> n == |events| && Consumed(store, start, Content(events), total, hashed, buffer, parts)
    ensures !flow.Finished? ==>
              start <= store.log && Transferred(store, store.log[|start|..], |start|, events, max, n, flow)
  {
    total, hashed, buffer, parts := 0, [], [], [];
    assert PartCalls([]) == [] && Refs(store.etag, |start| + 1, 0) == [];
    for i := 0 to |events|
      invariant store.Valid() && Within(events, max, i)
      invariant Consumed(store, start, Content(events[..i]), total, hashed, buffer, parts)
    {
      ContentStep(events, i);
      ghost var data := Content(events[..i]);
      if !events[i].Chunk? {
        n := i;
        flow := if events[i].Raises? then Failed else Raised;
        SourceStops(store, start, events, max, n, flow);
        return;
      }
      var chunk := events[i].bytes;
      if chunk == [] {
        assert data + chunk == data;
        continue;
      }
      total := total + |chunk|;
      if total > max {
        n := i;
        flow := LimitPassed(total);
        AbortHere(store, start, events, max, n);
        return;
      }
      var ok;
      ghost var k;
      ok, hashed, buffer, parts, k := TakeChunk(store, chunk, hashed, buffer, parts, start, data);
      if !ok {
        flow := Failed;
        n := ChunkFailed(store, start, events, max, i, k);
        return;
      }
    }
    n := |events|;
    assert events[..n] == events;
    flow := Finished;
  }

  /** After the last chunk: the trailing part, or the one empty part of an empty body. */
  method SendTail(store: ObjectStore, buffer: Bytes, parts: seq<PartRef>, ghost start: seq<Attempt>, ghost data: Bytes)
    returns (ok: bool, parts': seq<PartRef>)
    requires Consumed(store, start, data, |data|, data, buffer, parts)
    requires store.Valid()
    modifies store
    ensures store.Valid()
    ensures ok ==> InFlight(store, start, Bodies(data)) && parts' == Refs(store.etag, |start| + 1, |Bodies(data)|)
    ensures !ok ==> start <= store.log && PartFailed(store.log[|start|..], data, |Bodies(data)|)
  {
    ok, parts' := true, parts;
    ghost var full := FullParts(data);
    if buffer != [] || parts == [] {
      ok, parts' := UploadPart(store, buffer, parts, start, full);
      if !ok {
        assert Bodies(data)[..|full|] == full && Bodies(data)[|full|] == buffer;
        assert store.log[|start|..] == [Attempt(Create, true)] + PartCalls(full) +
               [Attempt(Part(|full| + 1, buffer), false)];
        assert PartFailedAt(store.log[|start|..], data, |full|);
      }
    } else {
      assert Bodies(data) == full;
    }
  }

  /** The body of the `try` block. */
  method Transfer(store: ObjectStore, events: seq<Event>, max: int)
    returns (flow: Flow, created: bool, total: nat, hashed: Bytes, ghost n: nat)
    requires max > 0
    requires store.Valid()
    modifies store
    ensures store.Valid()
    ensures old(store.log) <= store.log && StopsAt(events, max, n)
    ensures Transferred(store, store.log[|old(store.log)|..], |old(store.log)|, events, max, n, flow)
    ensures created == store.log[|old(store.log)|].ok
    ensures flow.Finished? ==> n == |events| && total == |Content(events)| && hashed == Content(events)
  {
    ghost var start := store.log;
    var tag;
    created, tag := store.Send(Create);
    assert store.log[|start|..] == [Attempt(Create, created)];
    if !created {
      n := StopExists(events, max, 0);
      return Failed, false, 0, [], n;
    }
    var buffer, parts;
    flow, total, hashed, buffer, parts, n := ConsumeAll(store, events, max, start);
    if !flow.Finished? {
      return;
    }
    assert events[..n] == events;
    var ok;
    ok, parts := SendTail(store, buffer, parts, start, Content(events));
    if !ok {
      flow := Failed;
      return;
    }
    flow := FinishUpload(store, parts, start, Content(events));
  }

  method FinishUpload(store: ObjectStore, parts: seq<PartRef>, ghost start: seq<Attempt>, ghost data: Bytes)
    returns (flow: Flow)
    requires InFlight(store, start, Bodies(data))
    requires store.Valid()
    modifies store
    ensures store.Valid()
    ensures start <= store.log && (flow.Finished? || flow.Failed?)
    ensures store.log[|start|..] ==
            [Attempt(Create, true)] + PartCalls(Bodies(data)) + [Attempt(Complete(parts), flow.Finished?)]
  {
    ghost var before := store.log;
    assert before[|start|..] == [Attempt(Create, true)] + PartCalls(Bodies(data));
    var ok, tag := store.Send(Complete(parts));
    assert store.log[|start|..] == before[|start|..] + [Attempt(Complete(parts), ok)];
    flow := if ok then Finished else Failed;
  }

  ghost predicate UploadRan(store: ObjectStore, calls: seq<Attempt>, first: nat, events: seq<Event>, max: int, n: nat,
                            hash: Bytes -> string, r: Result)
    requires StopsAt(events, max, n)
  {
    match r
    case Stored(size, sha256) =>
      && n == |events| && size == |Content(events)| && sha256 == hash(Content(events))
      && Transferred(store, calls, first, events, max, n, Finished)
    case TooLarge(limit, received) =>
      limit == max && Transferred(store, calls, first, events, max, n, LimitPassed(received))
    case SourceTooLarge => Transferred(store, calls, first, events, max, n, Raised)
    case InternalError =>
      && calls != []
      && if !calls[0].ok then calls == [Attempt(Create, false)]
         else
           var k := |calls| - 1;
           && calls[k] == Attempt(Abort, !store.fails(first + k))
           && Transferred(store, calls[..k], first, events, max, n, Failed)
  }

  /** `chunks` is consumed once; `hash` is the digest of everything fed to it. */
  method StreamUpload(store: ObjectStore, events: seq<Event>, max: int, hash: Bytes -> string)
    returns (r: Result, ghost n: nat)
    requires store.Valid()
    modifies store
    ensures store.Valid()
    ensures max <= 0 ==> r.InternalError? && store.log == old(store.log)
    ensures max > 0 ==> old(store.log) <= store.log && StopsAt(events, max, n)
    ensures max > 0 ==> UploadRan(store, store.log[|old(store.log)|..], |old(store.log)|, events, max, n, hash, r)
    ensures max > 0 ==> Recorded(store, store.log[|old(store.log)|..], |old(store.log)|)
  {
    if max <= 0 {
      return InternalError, 0;
    }
    ghost var start := store.log;
    var flow, created, total, hashed;
    flow, created, total, hashed, n := Transfer(store, events, max);
    match flow {
      case Finished => r := Stored(total, hash(hashed));
      case LimitPassed(received) => r := TooLarge(max, received);
      case Raised => r := SourceTooLarge;
      case Failed => r := InternalError;
    }
    if flow.Failed? && created {
      AbortFailed(store, events, max, n, start, hash);
    } else {
      FlowIsResult(store, store.log[|start|..], |start|, events, max, n, hash, flow, r);
    }
    RecordedFrom(store, |start|);
  }

  /** Where nothing is left to abort, the way the `try` block was left is the result. */
  lemma FlowIsResult(store: ObjectStore, calls: seq<Attempt>, first: nat, events: seq<Event>, max: int, n: nat,
                     hash: Bytes -> string, flow: Flow, r: Result)
    requires StopsAt(events, max, n) && Transferred(store, calls, first, events, max, n, flow) && calls != []
    requires flow.Failed? ==> !calls[0].ok
    requires flow.Finished? ==> n == |events|
    requires r == match flow
                  case Finished => Stored(|Content(events)|, hash(Content(events)))
                  case LimitPassed(received) => TooLarge(max, received)
                  case Raised => SourceTooLarge
                  case Failed => InternalError
    ensures UploadRan(store, calls, first, events, max, n, hash, r)
  {
  }

  /** The abort in the handler of ordinary exceptions. */
  method AbortFailed(store: ObjectStore, ghost events: seq<Event>, ghost max: int, ghost n: nat,
                     ghost start: seq<Attempt>,
                     ghost hash: Bytes -> string)
    requires store.Valid() && start <= store.log && StopsAt(events, max, n)
    requires |store.log| > |start| && store.log[|start|].ok
    requires Transferred(store, store.log[|start|..], |start|, events, max, n, Failed)
    modifies store
    ensures store.Valid() && start <= store.log
    ensures UploadRan(store, store.log[|start|..], |start|, events, max, n, hash, InternalError)
  {
    ghost var before, last := store.log, Attempt(Abort, !store.fails(|store.log|));
    store.AbortSafe();
    CallsSnoc(before, |start|, last);
    FailedAndAborted(store, before[|start|..], |start|, events, max, n, hash, last);
  }

  lemma FailedAndAborted(store: ObjectStore, calls: seq<Attempt>, first: nat, events: seq<Event>, max: int, n: nat,
                         hash: Bytes -> string, last: Attempt)
    requires StopsAt(events, max, n) && Transferred(store, calls, first, events, max, n, Failed)
    requires calls != [] && calls[0].ok && last == Attempt(Abort, !store.fails(first + |calls|))
    ensures UploadRan(store, calls + [last], first, events, max, n, hash, InternalError)
  {
    assert (calls + [last])[..|calls|] == calls;
  }

  /** The calls say of themselves whether the store failed at them. */
  predicate Recorded(store: ObjectStore, calls: seq<Attempt>, first: nat) {
    forall i :: 0 <= i < |calls| ==> calls[i].ok == !store.fails(first + i)
  }

  lemma RecordedFrom(store: ObjectStore, first: nat)
    requires store.Valid() && first <= |store.log|
    ensures Recorded(store, store.log[first..], first)
  {
    forall i | 0 <= i < |store.log[first..]| ensures store.log[first..][i].ok == !store.fails(first + i) {
      FaithfulAt(store.fails, store.log, first + i);
    }
  }

  // ---- what follows for every upload ------------------------------------------------

  predicate EndsUpload(a: Attempt) {
    a.request.Abort? || (a.request.Complete? && a.ok)
  }

  function CountEnds(calls: seq<Attempt>): nat {
    if calls == [] then 0
    else CountEnds(calls[..|calls| - 1]) + if EndsUpload(calls[|calls| - 1]) then 1 else 0
  }

  lemma {:induction false} PartsEndNothing(bodies: seq<Bytes>)
    ensures CountEnds([Attempt(Create, true)] + PartCalls(bodies)) == 0
  {
    var calls := [Attempt(Create, true)] + PartCalls(bodies);
    if bodies == [] {
      assert calls == [Attempt(Create, true)] && calls[..0] == [];
    } else {
      PartsEndNothing(bodies[..|bodies| - 1]);
      assert calls[..|calls| - 1] == [Attempt(Create, true)] + PartCalls(bodies[..|bodies| - 1]);
    }
  }

  lemma CountEndsSnoc(calls: seq<Attempt>, last: Attempt)
    ensures CountEnds(calls + [last]) == CountEnds(calls) + if EndsUpload(last) then 1 else 0
  {
    assert (calls + [last])[..|calls|] == calls;
  }

  predicate AllOk(calls: seq<Attempt>) {
    forall i :: 0 <= i < |calls| ==> calls[i].ok
  }

  lemma PartFailedEndsNothing(calls: seq<Attempt>, data: Bytes, k: nat)
    requires PartFailedAt(calls, data, k)
    ensures CountEnds(calls) == 0 && !calls[k + 1].ok
  {
    var before := [Attempt(Create, true)] + PartCalls(Bodies(data)[..k]);
    PartsEndNothing(Bodies(data)[..k]);
    CountEndsSnoc(before, calls[|calls| - 1]);
    assert |before| == k + 1 && calls == before + [calls[|calls| - 1]];
  }

  lemma FailedEndsNothing(store: ObjectStore, calls: seq<Attempt>, first: nat, events: seq<Event>, max: int, n: nat)
    requires StopsAt(events, max, n) && Transferred(store, calls, first, events, max, n, Failed)
    ensures calls != [] && CountEnds(calls) == 0
    ensures AllOk(calls) ==> VerdictAt(events, max, n).SourceRaises?
    ensures VerdictAt(events, max, n).SourceRaisesTooLarge? ==>
              exists k :: 0 <= k <= |FullParts(Content(events[..n]))| && k < |calls| && !calls[k].ok
  {
    var data, verdict := Content(events[..n]), VerdictAt(events, max, n);
    var bound := if verdict.Fits? then |Bodies(data)| else |FullParts(data)|;
    if calls == [Attempt(Create, false)] {
      assert calls[..0] == [] && !calls[0].ok;
    } else if PartFailed(calls, data, bound) {
      var k: nat :| k < bound && PartFailedAt(calls, data, k);
      PartFailedEndsNothing(calls, data, k);
    } else if verdict.Fits? {
      PartsEndNothing(Bodies(data));
      CountEndsSnoc([Attempt(Create, true)] + PartCalls(Bodies(data)), calls[|calls| - 1]);
      assert !calls[|calls| - 1].ok;
    } else {
      PartsEndNothing(FullParts(data));
    }
  }

  /** The number of ends and the last call, result by result. */
  lemma EndsByResult(store: ObjectStore, calls: seq<Attempt>, first: nat, events: seq<Event>, max: int, n: nat,
                     hash: Bytes -> string, r: Result)
    requires StopsAt(events, max, n) && UploadRan(store, calls, first, events, max, n, hash, r)
    requires !r.InternalError?
    ensures calls != [] && calls[0].ok && CountEnds(calls) == if r.SourceTooLarge? then 0 else 1
    ensures r.SourceTooLarge? ==> AllOk(calls)
  {
    var data := Content(events[..n]);
    if r.SourceTooLarge? {
      PartsEndNothing(FullParts(data));
    } else {
      var before := [Attempt(Create, true)] + PartCalls(if r.Stored? then Bodies(data) else FullParts(data));
      PartsEndNothing(if r.Stored? then Bodies(data) else FullParts(data));
      CountEndsSnoc(before, calls[|calls| - 1]);
      assert calls == before + [calls[|calls| - 1]];
    }
  }

  predicate NoneFail(store: ObjectStore, first: nat, count: nat) {
    forall i :: first <= i < first + count ==> !store.fails(i)
  }

  /** The stream's own size error at event `n`, after store calls none of which fails. */
  predicate LeftOpen(store: ObjectStore, first: nat, events: seq<Event>, max: int, n: nat)
    requires StopsAt(events, max, n)
  {
    VerdictAt(events, max, n).SourceRaisesTooLarge? && NoneFail(store, first, |FullParts(Content(events[..n]))| + 1)
  }

  /** An upload that was created is completed or aborted, once and not both, unless the
      chunk source raises the size error itself and the creation and the full parts before
      it succeed: then the upload is left open. */
  lemma EndedOnce(store: ObjectStore, calls: seq<Attempt>, first: nat, events: seq<Event>, max: int, n: nat,
                  hash: Bytes -> string, r: Result)
    requires StopsAt(events, max, n) && UploadRan(store, calls, first, events, max, n, hash, r) &&
             Recorded(store, calls, first)
    ensures calls != [] && (store.fails(first) ==> calls == [Attempt(Create, false)] && r.InternalError?)
    ensures CountEnds(calls) == if store.fails(first) || LeftOpen(store, first, events, max, n) then 0 else 1
    ensures CountEnds(calls) == 1 ==>
              if r.Stored? then calls[|calls| - 1].request.Complete? else calls[|calls| - 1].request.Abort?
  {
    assert calls[0].ok == !store.fails(first + 0);
    if !r.InternalError? {
      EndsByResult(store, calls, first, events, max, n, hash, r);
      if r.SourceTooLarge? {
        CallsSucceeded(store, calls, first, |FullParts(Content(events[..n]))| + 1);
      }
    } else if calls[0].ok {
      AbortedOnFailure(store, calls, first, events, max, n);
      if VerdictAt(events, max, n).SourceRaisesTooLarge? {
        FailureBeforeTheStop(store, calls, first, events, max, n);
      }
    } else {
      assert calls[..0] == [];
    }
  }

  lemma FailureBeforeTheStop(store: ObjectStore, calls: seq<Attempt>, first: nat, events: seq<Event>, max: int, n: nat)
    requires calls != [] && StopsAt(events, max, n) && Recorded(store, calls, first)
    requires VerdictAt(events, max, n).SourceRaisesTooLarge?
    requires Transferred(store, calls[..|calls| - 1], first, events, max, n, Failed)
    ensures !LeftOpen(store, first, events, max, n)
  {
    FailedEndsNothing(store, calls[..|calls| - 1], first, events, max, n);
    var k :| 0 <= k <= |FullParts(Content(events[..n]))| && k < |calls| - 1 && !calls[..|calls| - 1][k].ok;
    assert calls[k].ok == !store.fails(first + k);
  }

  lemma AbortedOnFailure(store: ObjectStore, calls: seq<Attempt>, first: nat, events: seq<Event>, max: int, n: nat)
    requires calls != [] && calls[|calls| - 1].request.Abort?
    requires StopsAt(events, max, n) && Transferred(store, calls[..|calls| - 1], first, events, max, n, Failed)
    ensures CountEnds(calls) == 1
    ensures AllOk(calls) ==> VerdictAt(events, max, n).SourceRaises?
  {
    var before := calls[..|calls| - 1];
    FailedEndsNothing(store, before, first, events, max, n);
    CountEndsSnoc(before, calls[|calls| - 1]);
    assert calls == before + [calls[|calls| - 1]];
    assert AllOk(calls) ==> AllOk(before);
  }

  function Uploaded(calls: seq<Attempt>): seq<Bytes> {
    if calls == [] then []
    else
      var last := calls[|calls| - 1];
      Uploaded(calls[..|calls| - 1]) + if last.request.Part? && last.ok then [last.request.body] else []
  }

  lemma {:induction false} UploadedParts(bodies: seq<Bytes>)
    ensures Uploaded([Attempt(Create, true)] + PartCalls(bodies)) == bodies
  {
    var calls := [Attempt(Create, true)] + PartCalls(bodies);
    if bodies == [] {
      assert calls == [Attempt(Create, true)] && calls[..0] == [];
    } else {
      UploadedParts(bodies[..|bodies| - 1]);
      assert calls[..|calls| - 1] == [Attempt(Create, true)] + PartCalls(bodies[..|bodies| - 1]);
    }
  }

  /** A stored object is the whole stream: the parts join to it, are numbered 1, 2, ...,
      and size and digest are its own. */
  lemma StoredIsWhole(store: ObjectStore, calls: seq<Attempt>, first: nat, events: seq<Event>, max: int, n: nat,
                      hash: Bytes -> string, r: Result)
    requires StopsAt(events, max, n) && UploadRan(store, calls, first, events, max, n, hash, r) && r.Stored?
    ensures n == |events| && Joined(Uploaded(calls)) == Content(events)
    ensures r.size == |Content(events)| <= max && r.sha256 == hash(Content(events))
    ensures |Uploaded(calls)| == if r.size == 0 then 1 else (r.size + 8388607) / 8388608
    ensures forall k :: 0 <= k < |Uploaded(calls)| - 1 ==> |Uploaded(calls)[k]| == 8388608
    ensures |calls| == |Uploaded(calls)| + 2
    ensures forall k :: 1 <= k <= |Uploaded(calls)| ==> calls[k].request == Part(k, Uploaded(calls)[k - 1])
    ensures var last := calls[|calls| - 1].request;
            && calls[0].request == Create && last.Complete? && |last.parts| == |Uploaded(calls)|
            && forall k :: 0 <= k < |last.parts| ==> last.parts[k] == PartRef(k + 1, store.etag(first + 1 + k))
  {
    var data := Content(events[..n]);
    assert events[..n] == events;
    var before := [Attempt(Create, true)] + PartCalls(Bodies(data));
    UploadedBefore(before, calls[|calls| - 1], Bodies(data));
    assert calls == before + [calls[|calls| - 1]];
    BodiesShape(data);
  }

  /** A stream stopped by the cap has left only bytes from before the chunk that passed
      it: whole parts, within the cap. */
  lemma NothingPastTheCap(store: ObjectStore, calls: seq<Attempt>, first: nat, events: seq<Event>, max: int, n: nat,
                          hash: Bytes -> string, r: Result)
    requires StopsAt(events, max, n) && UploadRan(store, calls, first, events, max, n, hash, r) && r.TooLarge?
    ensures n < |events| && r.received == |Content(events[..n + 1])| > max && |Content(events[..n])| <= max
    ensures Joined(Uploaded(calls)) <= Content(events[..n])
    ensures |Content(events[..n])| - |Joined(Uploaded(calls))| < MULTIPART_PART_SIZE
  {
    var data := Content(events[..n]);
    var before := [Attempt(Create, true)] + PartCalls(FullParts(data));
    UploadedBefore(before, calls[|calls| - 1], FullParts(data));
    assert calls == before + [calls[|calls| - 1]];
    FullPartsShape(data);
  }

  lemma UploadedBefore(before: seq<Attempt>, last: Attempt, bodies: seq<Bytes>)
    requires before == [Attempt(Create, true)] + PartCalls(bodies) && !last.request.Part?
    ensures Uploaded(before + [last]) == bodies
  {
    UploadedParts(bodies);
    assert (before + [last])[..|before|] == before;
  }

  /** The calls whose failure matters: all but an abort. */
  function Needed(events: seq<Event>, max: int, n: nat): nat
    requires StopsAt(events, max, n)
  {
    var data := Content(events[..n]);
    if VerdictAt(events, max, n).Fits? then |Bodies(data)| + 2 else |FullParts(data)| + 1
  }

  lemma CallsSucceeded(store: ObjectStore, calls: seq<Attempt>, first: nat, count: nat)
    requires Recorded(store, calls, first) && count <= |calls| && forall i :: 0 <= i < count ==> calls[i].ok
    ensures NoneFail(store, first, count)
  {
    forall i | first <= i < first + count ensures !store.fails(i) {
      assert calls[i - first].ok == !store.fails(first + (i - first));
    }
  }

  lemma PartFailureMatters(store: ObjectStore, calls: seq<Attempt>, first: nat, events: seq<Event>, max: int, n: nat,
                           k: nat)
    requires StopsAt(events, max, n) && Recorded(store, calls, first) && PartFailedAt(calls, Content(events[..n]), k)
    requires k < if VerdictAt(events, max, n).Fits? then |Bodies(Content(events[..n]))|
             else |FullParts(Content(events[..n]))|
    ensures !NoneFail(store, first, Needed(events, max, n))
  {
    PartFailedEndsNothing(calls, Content(events[..n]), k);
    assert |calls| == k + 2 && store.fails(first + (k + 1));
  }

  lemma FailureMatters(store: ObjectStore, calls: seq<Attempt>, first: nat, events: seq<Event>, max: int, n: nat)
    requires StopsAt(events, max, n) && Recorded(store, calls, first) &&
             Transferred(store, calls, first, events, max, n, Failed)
    ensures VerdictAt(events, max, n).SourceRaises? || !NoneFail(store, first, Needed(events, max, n))
  {
    var data, verdict := Content(events[..n]), VerdictAt(events, max, n);
    var bound := if verdict.Fits? then |Bodies(data)| else |FullParts(data)|;
    if calls == [Attempt(Create, false)] {
      assert !calls[0].ok && store.fails(first + 0);
    } else if PartFailed(calls, data, bound) {
      var k: nat :| k < bound && PartFailedAt(calls, data, k);
      PartFailureMatters(store, calls, first, events, max, n, k);
    } else if verdict.Fits? {
      var last := |Bodies(data)| + 1;
      assert |calls| == last + 1 && !calls[last].ok && store.fails(first + last);
    }
  }

  lemma SuccessNeededAll(store: ObjectStore, calls: seq<Attempt>, first: nat, events: seq<Event>, max: int, n: nat,
                         hash: Bytes -> string, r: Result)
    requires StopsAt(events, max, n) && UploadRan(store, calls, first, events, max, n, hash, r) &&
             Recorded(store, calls, first)
    requires !r.InternalError?
    ensures NoneFail(store, first, Needed(events, max, n))
  {
    CallsSucceeded(store, calls, first, Needed(events, max, n));
  }

  /** The stream decides the result, unless a call that the upload needs fails: then it is an
      internal error.  Whether an abort fails makes no difference. */
  lemma StreamDecides(store: ObjectStore, calls: seq<Attempt>, first: nat, events: seq<Event>, max: int, n: nat,
                      hash: Bytes -> string, r: Result)
    requires StopsAt(events, max, n) && UploadRan(store, calls, first, events, max, n, hash, r) &&
             Recorded(store, calls, first)
    ensures r == if !NoneFail(store, first, Needed(events, max, n)) then InternalError
                 else match VerdictAt(events, max, n)
                      case Fits => Stored(|Content(events)|, hash(Content(events)))
                      case Exceeds(received) => TooLarge(max, received)
                      case SourceRaises => InternalError
                      case SourceRaisesTooLarge => SourceTooLarge
  {
    if !r.InternalError? {
      SuccessNeededAll(store, calls, first, events, max, n, hash, r);
    } else if calls[0].ok {
      FailureMatters(store, calls[..|calls| - 1], first, events, max, n);
    } else {
      FailureMatters(store, calls, first, events, max, n);
    }
  }
}
