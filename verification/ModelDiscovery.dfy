/** The cached discovery of provider models behind `GET /v1/models`. */
module ModelDiscovery {
  import opened Wrappers
  import opened YamlTree
  import opened AliasGraph
  import opened GatewayConfig
  import opened ModelRouting
  import opened ModelListing

  const OLLAMA_TTL: real := 60.0
  const CATALOGUE_TTL: real := 300.0

  type Key = (string, string)

  /** A published row.  The tier is written in place, also on rows that the cache holds; the
      key says under which answer the row was made. */
  class ModelRow {
    const id: string
    const owner: string
    ghost const key: Option<Key>
    var tier: Option<InferenceTier>

    constructor (id: string, owner: string, tier: Option<InferenceTier>, ghost key: Option<Key>)
      ensures this.id == id && this.owner == owner && this.tier == tier && this.key == key
    {
      this.id, this.owner, this.tier, this.key := id, owner, tier, key;
    }
  }

  datatype CacheEntry = CacheEntry(models: seq<ModelRow>, fetchedAt: real)

  /** An answer of a provider as it was stored. */
  datatype Fetch = Fetch(key: Key, at: real, tags: seq<string>)

  /** A question to the cache: by which discovery of a listing, if by one, when it was asked
      and whether it was a hit. */
  datatype Read = Read(who: Option<nat>, key: Key, at: real, hit: bool)

  ghost predicate RowsOf(models: seq<ModelRow>, key: Key, tags: seq<string>) {
    && |models| == |tags|
    && (forall j :: 0 <= j < |tags| ==>
          models[j].id == key.1 + "/" + tags[j] && models[j].owner == key.1 && models[j].key == Some(key))
    && forall j, k :: 0 <= j < k < |models| ==> models[j] != models[k]
  }

  ghost predicate Stored(fetches: seq<Fetch>, key: Key, entry: CacheEntry) {
    exists i :: 0 <= i < |fetches| && fetches[i].key == key && fetches[i].at == entry.fetchedAt &&
                RowsOf(entry.models, key, fetches[i].tags)
  }

  class DiscoveryCache {
    const clock: nat -> real
    var ticks: nat
    var entries: map<Key, CacheEntry>
    /** Everything that was ever asked and stored, and every row ever stored. */
    ghost var asked: seq<Read>
    ghost var fetches: seq<Fetch>
    ghost var rows: set<ModelRow>

    /** The clock never goes back; every entry is one stored answer. */
    ghost predicate Valid()
      reads this
    {
      && (forall i, j :: 0 <= i <= j ==> clock(i) <= clock(j))
      && (forall n :: 0 <= n < |asked| ==> asked[n].at <= clock(ticks))
      && (forall key :: key in entries ==> Stored(fetches, key, entries[key]) && entries[key].fetchedAt <= clock(ticks))
      && (forall key, m :: key in entries && m in entries[key].models ==> m in rows)
    }

    constructor (clock: nat -> real)
      requires forall i: nat, j: nat :: i <= j ==> clock(i) <= clock(j)
      ensures Valid() && entries == map[] && rows == {} && asked == [] && fetches == [] && this.clock == clock
    {
      this.clock := clock;
      ticks, entries, asked, fetches, rows := 0, map[], [], [], {};
    }

    method Now() returns (now: real)
      requires Valid()
      modifies this`ticks
      ensures Valid() && now == clock(old(ticks)) && ticks == old(ticks) + 1
    {
      now := clock(ticks);
      ticks := ticks + 1;
    }

    method Get(key: Key, ttl: real, ghost who: Option<nat>) returns (r: Option<seq<ModelRow>>)
      requires Valid()
      modifies this`ticks, this`entries, this`asked
      ensures Valid() && old(ticks) <= ticks
      ensures r.Some? <==> key in old(entries) && clock(old(ticks)) - old(entries)[key].fetchedAt <= ttl
      ensures r.Some? ==> entries == old(entries) && r.value == entries[key].models && ticks == old(ticks) + 1
      ensures r.None? ==> entries == old(entries) - {key}
      ensures asked == old(asked) + [Read(who, key, clock(old(ticks)), r.Some?)]
    {
      asked := asked + [Read(who, key, clock(ticks), key in entries && clock(ticks) - entries[key].fetchedAt <= ttl)];
      if key !in entries {
        return None;
      }
      var now := Now();
      if now - entries[key].fetchedAt > ttl {
        entries := entries - {key};
        return None;
      }
      r := Some(entries[key].models);
    }

    method Put(key: Key, models: seq<ModelRow>, ghost tags: seq<string>)
      requires Valid() && RowsOf(models, key, tags)
      modifies this`ticks, this`entries, this`fetches, this`rows
      ensures Valid() && ticks == old(ticks) + 1
      ensures entries == old(entries)[key := CacheEntry(models, clock(old(ticks)))]
      ensures fetches == old(fetches) + [Fetch(key, clock(old(ticks)), tags)]
      ensures rows == old(rows) + set m | m in models
    {
      var now := Now();
      fetches := fetches + [Fetch(key, now, tags)];
      rows := rows + set m | m in models;
      entries := entries[key := CacheEntry(models, now)];
      assert fetches[|fetches| - 1].key == key;
      forall k | k in entries ensures Stored(fetches, k, entries[k]) {
        if k != key {
          assert Stored(old(fetches), k, entries[k]);
          var i :| 0 <= i < |old(fetches)| && old(fetches)[i].key == k && old(fetches)[i].at == entries[k].fetchedAt &&
                   RowsOf(entries[k].models, k, old(fetches)[i].tags);
          assert fetches[i] == old(fetches)[i];
        }
      }
    }
  }

  // ---- one provider -------------------------------------------------------------

  predicate Discoverable(p: Provider) {
    p.kind == "ollama" || p.kind == "anthropic" || p.kind == "openai" || p.kind == "openai_compatible"
  }

  function Source(p: Provider): string {
    if p.kind == "openai_compatible" then "openai" else p.kind
  }

  function KeyOf(p: Provider): Key {
    (Source(p), p.name)
  }

  function Ttl(p: Provider): real {
    if p.kind == "ollama" then OLLAMA_TTL else CATALOGUE_TTL
  }

  method MakeRows(key: Key, tags: seq<string>) returns (models: seq<ModelRow>)
    ensures RowsOf(models, key, tags) && forall m :: m in models ==> fresh(m)
  {
    models := [];
    for i := 0 to |tags|
      invariant RowsOf(models, key, tags[..i]) && forall m :: m in models ==> fresh(m)
    {
      var row := new ModelRow(key.1 + "/" + tags[i], key.1, None, Some(key));
      models := models + [row];
    }
    assert tags[..|tags|] == tags;
  }

  /** The rows shown for a provider. */
  datatype Found = Found(provider: Provider, models: seq<ModelRow>)

  /** Where they come from: the question the discovery itself put to the cache, and an
      answer that was stored. */
  datatype Origin = Origin(turn: nat, fetch: Fetch)

  /** The rows are one stored answer of this provider.  On a hit it was no older than its
      time to live when this discovery asked; on a miss it was stored after that. */
  ghost predicate Current(f: Found, o: Origin, who: Option<nat>, asked: seq<Read>, fetches: seq<Fetch>) {
    && o.turn < |asked| && asked[o.turn].who == who && asked[o.turn].key == KeyOf(f.provider)
    && o.fetch in fetches && o.fetch.key == KeyOf(f.provider) && RowsOf(f.models, KeyOf(f.provider), o.fetch.tags)
    && if asked[o.turn].hit then asked[o.turn].at - o.fetch.at <= Ttl(f.provider) else asked[o.turn].at <= o.fetch.at
  }

  predicate Hit(p: Provider, entries: map<Key, CacheEntry>, now: real) {
    KeyOf(p) in entries && now - entries[KeyOf(p)].fetchedAt <= Ttl(p)
  }

  /** First half of a discovery: what the cache has. */
  method AskCache(cache: DiscoveryCache, p: Provider, ghost who: Option<nat>)
    returns (r: Option<seq<ModelRow>>, ghost o: Origin)
    requires cache.Valid()
    modifies cache`ticks, cache`entries, cache`asked
    ensures cache.Valid() && old(cache.ticks) <= cache.ticks && o.turn == |old(cache.asked)|
    ensures cache.asked == old(cache.asked) + [Read(who, KeyOf(p), cache.clock(old(cache.ticks)), r.Some?)]
    ensures r.Some? <==> Hit(p, old(cache.entries), cache.clock(old(cache.ticks)))
    ensures r.Some? ==>
              && Current(Found(p, r.value), o, who, cache.asked, cache.fetches) &&
                 (forall m :: m in r.value ==> m in cache.rows)
              && cache.entries == old(cache.entries) && r.value == cache.entries[KeyOf(p)].models
              && cache.ticks == old(cache.ticks) + 1
    ensures r.None? ==> cache.entries == old(cache.entries) - {KeyOf(p)}
  {
    var key := KeyOf(p);
    ghost var turn := |cache.asked|;
    r := cache.Get(key, Ttl(p), who);
    o := Origin(turn, Fetch(key, 0.0, []));
    if r.Some? {
      assert Stored(cache.fetches, key, cache.entries[key]);
      ghost var i :| 0 <= i < |cache.fetches| && cache.fetches[i].key == key &&
        cache.fetches[i].at == cache.entries[key].fetchedAt &&
                     RowsOf(cache.entries[key].models, key, cache.fetches[i].tags);
      o := Origin(turn, cache.fetches[i]);
    }
  }

  /** Second half, after the provider has answered. */
  method StoreAnswer(cache: DiscoveryCache, p: Provider, tags: seq<string>)
    returns (models: seq<ModelRow>, ghost fetch: Fetch)
    requires cache.Valid()
    modifies cache`ticks, cache`entries, cache`fetches, cache`rows
    ensures cache.Valid() && cache.ticks == old(cache.ticks) + 1
    ensures fetch == Fetch(KeyOf(p), cache.clock(old(cache.ticks)), tags) &&
            cache.fetches == old(cache.fetches) + [fetch]
    ensures RowsOf(models, KeyOf(p), tags) && cache.rows == old(cache.rows) + (set m | m in models)
    ensures forall m :: m in models ==> fresh(m)
    ensures cache.entries == old(cache.entries)[KeyOf(p) := CacheEntry(models, cache.clock(old(cache.ticks)))]
  {
    models := MakeRows(KeyOf(p), tags);
    fetch := Fetch(KeyOf(p), cache.clock(cache.ticks), tags);
    cache.Put(KeyOf(p), models, tags);
  }

  /** A whole discovery.  `fetched` is what the provider would answer now; `None` stands for
      an error that the fetch does not turn into the empty list. */
  method Discover(cache: DiscoveryCache, p: Provider, fetched: Option<seq<string>>)
    returns (r: Option<seq<ModelRow>>, ghost o: Origin)
    requires cache.Valid() && Discoverable(p)
    modifies cache
    ensures cache.Valid() && old(cache.ticks) <= cache.ticks && old(cache.fetches) <= cache.fetches
    ensures var now := cache.clock(old(cache.ticks));
            cache.asked == old(cache.asked) + [Read(None, KeyOf(p), now, Hit(p, old(cache.entries), now))]
    ensures r.Some? ==> Current(Found(p, r.value), o, None, cache.asked, cache.fetches) && o.turn == |old(cache.asked)|
    ensures r.Some? ==> KeyOf(p) in cache.entries && r.value == cache.entries[KeyOf(p)].models
    ensures cache.entries - {KeyOf(p)} == old(cache.entries) - {KeyOf(p)}
    ensures old(cache.rows) <= cache.rows && fresh(cache.rows - old(cache.rows))
    ensures r.None? <==> fetched.None? && !Hit(p, old(cache.entries), cache.clock(old(cache.ticks)))
    ensures Hit(p, old(cache.entries), cache.clock(old(cache.ticks))) ==>
              cache.entries == old(cache.entries) && cache.ticks == old(cache.ticks) + 1
  {
    ghost var start := cache.ticks;
    r, o := AskCache(cache, p, None);
    if r.None? && fetched.Some? {
      assert cache.clock(start) <= cache.clock(cache.ticks);
      var models;
      ghost var fetch;
      models, fetch := StoreAnswer(cache, p, fetched.value);
      r, o := Some(models), Origin(o.turn, fetch);
    }
  }

  // ---- the merged listing ---------------------------------------------------------

  function NativePart(id: string): string {
    match FirstSlash(id)
    case Some(i) => FirstSlashFinds(id); id[i + 1..]
    case None => id
  }

  function TierFor(c: Config, p: Provider, id: string): InferenceTier {
    DeriveTier(p, NativePart(id), c.settings.tiers)
  }

  function PublishesCatalogue(p: Provider): bool {
    p.kind == "bedrock" && Find(p.details, "bedrock_protocol").Some? && !Find(p.details, "bedrock_protocol").value.Null?
  }

  predicate Asks(p: Provider) {
    p.enabled && Discoverable(p)
  }

  /** One provider per source and name among those that are discovered. */
  predicate DistinctKeys(ps: seq<Provider>) {
    forall i, j :: 0 <= i < j < |ps| && Asks(ps[i]) && Asks(ps[j]) ==> KeyOf(ps[i]) != KeyOf(ps[j])
  }

  /** Each finding is current by its own read, which is not before read number `start`. */
  ghost predicate CurrentAll(found: seq<Found>, origins: seq<Origin>, slots: seq<nat>, asked: seq<Read>,
                             fetches: seq<Fetch>,
                             start: nat) {
    |origins| == |slots| == |found| &&
    forall k :: 0 <= k < |found| ==>
      Current(found[k], origins[k], Some(slots[k]), asked, fetches) && start <= origins[k].turn
  }

  /** Which entries of the configuration the findings are for. */
  ghost predicate Placed(found: seq<Found>, slots: seq<nat>, ps: seq<Provider>) {
    && |slots| == |found|
    && (forall k :: 0 <= k < |slots| ==>
          slots[k] < |ps| && found[k].provider == ps[slots[k]] && Asks(found[k].provider))
    && forall k, m :: 0 <= k < m < |slots| ==> slots[k] < slots[m]
  }

  ghost predicate AllHeld(found: seq<Found>, rows: set<ModelRow>) {
    forall k, m :: 0 <= k < |found| && m in found[k].models ==> m in rows
  }

  /** The first `i` providers are done. */
  ghost predicate Gathered(cache: DiscoveryCache, found: seq<Found>, origins: seq<Origin>, slots: seq<nat>,
                           ps: seq<Provider>, i: nat, start: nat)
    reads cache
  {
    && cache.Valid() && i <= |ps|
    && CurrentAll(found, origins, slots, cache.asked, cache.fetches, start)
    && Placed(found, slots, ps[..i])
    && AllHeld(found, cache.rows)
  }

  lemma PlacedOneMore(found: seq<Found>, slots: seq<nat>, ps: seq<Provider>, i: nat, f: Found)
    requires i < |ps| && Placed(found, slots, ps[..i])
    ensures Placed(found, slots, ps[..i + 1])
    ensures f.provider == ps[i] && Asks(f.provider) ==> Placed(found + [f], slots + [i], ps[..i + 1])
  {
  }

  // ---- the discoveries, run concurrently -----------------------------------------------

  /** One discovery of a listing: it asks the cache, and on a miss fetches and stores. */
  datatype Task = Idle | Asking | Fetching | Listed(models: seq<ModelRow>) | Failed

  ghost predicate TaskOk(t: Task, i: nat, p: Provider, o: Origin, asked: seq<Read>, fetches: seq<Fetch>,
                         rows: set<ModelRow>,
                         start: nat) {
    && (t.Idle? <==> !Asks(p))
    && (t.Fetching? ==>
          && start <= o.turn < |asked| && !asked[o.turn].hit
          && asked[o.turn].who == Some(i) && asked[o.turn].key == KeyOf(p))
    && (t.Listed? ==>
          && Current(Found(p, t.models), o, Some(i), asked, fetches) && start <= o.turn
          && forall m :: m in t.models ==> m in rows)
  }

  ghost predicate TasksOk(cache: DiscoveryCache, ps: seq<Provider>, tasks: seq<Task>, origins: seq<Origin>, start: nat)
    reads cache
  {
    && cache.Valid() && start <= |cache.asked| && |tasks| == |origins| == |ps|
    && forall i :: 0 <= i < |ps| ==>
         TaskOk(tasks[i], i, ps[i], origins[i], cache.asked, cache.fetches, cache.rows, start)
  }

  /** Whatever is asked and stored meanwhile leaves a discovery as it is. */
  lemma TaskStays(t: Task, i: nat, p: Provider, o: Origin, start: nat, asked: seq<Read>, fetches: seq<Fetch>,
                  rows: set<ModelRow>,
                  asked': seq<Read>, fetches': seq<Fetch>, rows': set<ModelRow>)
    requires TaskOk(t, i, p, o, asked, fetches, rows, start)
    requires asked <= asked' && fetches <= fetches' && rows <= rows'
    ensures TaskOk(t, i, p, o, asked', fetches', rows', start)
  {
    if t.Listed? {
      var n :| 0 <= n < |fetches| && fetches[n] == o.fetch;
      assert fetches'[n] == o.fetch;
    }
  }

  lemma TasksStay(ps: seq<Provider>, tasks: seq<Task>, origins: seq<Origin>, start: nat,
                  asked: seq<Read>, fetches: seq<Fetch>, rows: set<ModelRow>,
                  asked': seq<Read>, fetches': seq<Fetch>, rows': set<ModelRow>)
    requires |tasks| == |origins| == |ps| && asked <= asked' && fetches <= fetches' && rows <= rows'
    requires forall j :: 0 <= j < |ps| ==> TaskOk(tasks[j], j, ps[j], origins[j], asked, fetches, rows, start)
    ensures forall j :: 0 <= j < |ps| ==> TaskOk(tasks[j], j, ps[j], origins[j], asked', fetches', rows', start)
  {
    forall j | 0 <= j < |ps| ensures TaskOk(tasks[j], j, ps[j], origins[j], asked', fetches', rows', start) {
      TaskStays(tasks[j], j, ps[j], origins[j], start, asked, fetches, rows, asked', fetches', rows');
    }
  }

  /** Read number `n` is the one question of discovery `i` since read number `start`. */
  ghost predicate OwnRead(asked: seq<Read>, start: nat, i: nat, n: nat) {
    start <= n < |asked| && asked[n].who == Some(i) && forall m :: start <= m < |asked| && asked[m].who == Some(i) ==>
        m == n
  }

  ghost predicate NotAsked(asked: seq<Read>, start: nat, i: nat) {
    forall m :: start <= m < |asked| ==> asked[m].who != Some(i)
  }

  /** A discovery says of itself what happened: it fails only without an answer, and after a
      miss it lists what the provider answered. */
  ghost predicate TaskTold(t: Task, i: nat, o: Origin, fetched: Option<seq<string>>, asked: seq<Read>, start: nat) {
    if t.Idle? || t.Asking? then NotAsked(asked, start, i)
    else
      && OwnRead(asked, start, i, o.turn)
      && (t.Fetching? ==> !asked[o.turn].hit)
      && (t.Failed? ==> !asked[o.turn].hit && fetched.None?)
      && (t.Listed? && !asked[o.turn].hit ==> fetched == Some(o.fetch.tags))
  }

  ghost predicate AllTold(tasks: seq<Task>, origins: seq<Origin>, fetch: nat -> Option<seq<string>>, asked: seq<Read>,
                          start: nat) {
    |origins| == |tasks| && forall i :: 0 <= i < |tasks| ==> TaskTold(tasks[i], i, origins[i], fetch(i), asked, start)
  }

  lemma ToldStays(t: Task, i: nat, o: Origin, fetched: Option<seq<string>>, asked: seq<Read>, asked': seq<Read>,
                  start: nat)
    requires TaskTold(t, i, o, fetched, asked, start) && asked <= asked' && start <= |asked|
    requires forall m :: |asked| <= m < |asked'| ==> asked'[m].who != Some(i)
    ensures TaskTold(t, i, o, fetched, asked', start)
  {
  }

  lemma OneMoreTold(tasks: seq<Task>, origins: seq<Origin>, fetch: nat -> Option<seq<string>>, asked: seq<Read>,
                    start: nat,
                    i: nat, r: Read, t: Task, o: Origin)
    requires AllTold(tasks, origins, fetch, asked, start) && i < |tasks| && start <= |asked| && tasks[i].Asking?
    requires r.who == Some(i) && o.turn == |asked| && (t.Listed? <==> r.hit) && (t.Fetching? <==> !r.hit)
    ensures AllTold(tasks[i := t], origins[i := o], fetch, asked + [r], start)
  {
    forall j | 0 <= j < |tasks|
      ensures TaskTold(tasks[i := t][j], j, origins[i := o][j], fetch(j), asked + [r], start)
    {
      if j != i {
        ToldStays(tasks[j], j, origins[j], fetch(j), asked, asked + [r], start);
      }
    }
  }

  /** The cache has only been asked and added to. */
  twostate predicate Grown(cache: DiscoveryCache)
    reads cache
  {
    && old(cache.asked) <= cache.asked && old(cache.fetches) <= cache.fetches
    && old(cache.rows) <= cache.rows && fresh(cache.rows - old(cache.rows))
  }

  method Ask(cache: DiscoveryCache, ps: seq<Provider>, i: nat, ghost fetch: nat -> Option<seq<string>>,
             tasks: seq<Task>,
             ghost origins: seq<Origin>, ghost start: nat)
    returns (tasks': seq<Task>, ghost origins': seq<Origin>)
    requires i < |ps| && TasksOk(cache, ps, tasks, origins, start) && tasks[i].Asking?
    requires AllTold(tasks, origins, fetch, cache.asked, start)
    modifies cache
    ensures TasksOk(cache, ps, tasks', origins', start) && Grown(cache)
    ensures AllTold(tasks', origins', fetch, cache.asked, start)
    ensures tasks' == tasks[i := tasks'[i]] && (tasks'[i].Fetching? || tasks'[i].Listed?)
    ensures origins' == origins[i := origins'[i]] && origins'[i].turn == |old(cache.asked)|
    ensures var now := cache.clock(old(cache.ticks));
            cache.asked == old(cache.asked) + [Read(Some(i), KeyOf(ps[i]), now, tasks'[i].Listed?)]
  {
    ghost var asked, fetches, rows := cache.asked, cache.fetches, cache.rows;
    var r;
    ghost var o;
    r, o := AskCache(cache, ps[i], Some(i));
    TasksStay(ps, tasks, origins, start, asked, fetches, rows, cache.asked, cache.fetches, cache.rows);
    tasks', origins' := tasks[i := if r.Some? then Listed(r.value) else Fetching], origins[i := o];
    OneMoreTold(tasks, origins, fetch, asked, start, i, cache.asked[|asked|], tasks'[i], o);
  }

  method Finish(cache: DiscoveryCache, ps: seq<Provider>, i: nat, fetch: nat -> Option<seq<string>>, tasks: seq<Task>,
                ghost origins: seq<Origin>, ghost start: nat)
    returns (tasks': seq<Task>, ghost origins': seq<Origin>)
    requires i < |ps| && TasksOk(cache, ps, tasks, origins, start) && tasks[i].Fetching?
    requires AllTold(tasks, origins, fetch, cache.asked, start)
    modifies cache
    ensures TasksOk(cache, ps, tasks', origins', start) && Grown(cache)
    ensures AllTold(tasks', origins', fetch, cache.asked, start)
    ensures tasks' == tasks[i := tasks'[i]] && (tasks'[i].Failed? || tasks'[i].Listed?)
    ensures origins' == origins[i := origins'[i]] && origins'[i].turn == origins[i].turn
    ensures cache.asked == old(cache.asked)
  {
    var fetched := fetch(i);
    if fetched.None? {
      return tasks[i := Failed], origins;
    }
    ghost var asked, fetches, rows := cache.asked, cache.fetches, cache.rows;
    assert asked[origins[i].turn].at <= cache.clock(cache.ticks);
    var models;
    ghost var stored;
    models, stored := StoreAnswer(cache, ps[i], fetched.value);
    TasksStay(ps, tasks, origins, start, asked, fetches, rows, cache.asked, cache.fetches, cache.rows);
    tasks', origins' := tasks[i := Listed(models)], origins[i := Origin(origins[i].turn, stored)];
  }

  predicate Ended(t: Task) {
    t.Idle? || t.Listed? || t.Failed?
  }

  /** The next half of discovery `i`, if it has one left. */
  method Resume(cache: DiscoveryCache, ps: seq<Provider>, i: nat, fetch: nat -> Option<seq<string>>, tasks: seq<Task>,
                ghost origins: seq<Origin>, ghost start: nat)
    returns (tasks': seq<Task>, ghost origins': seq<Origin>)
    requires i < |ps| && TasksOk(cache, ps, tasks, origins, start) && AllTold(tasks, origins, fetch, cache.asked, start)
    modifies cache
    ensures TasksOk(cache, ps, tasks', origins', start) && Grown(cache) &&
            AllTold(tasks', origins', fetch, cache.asked, start)
    ensures tasks' == tasks[i := tasks'[i]]
    ensures tasks[i].Asking? ==> tasks'[i].Fetching? || tasks'[i].Listed?
    ensures !tasks[i].Asking? ==> Ended(tasks'[i])
    ensures Asked(old(cache.asked), if tasks[i].Asking? then [(Some(i), KeyOf(ps[i]))] else [], cache.asked)
  {
    tasks', origins' := tasks, origins;
    if tasks[i].Asking? {
      tasks', origins' := Ask(cache, ps, i, fetch, tasks, origins, start);
    } else if tasks[i].Fetching? {
      tasks', origins' := Finish(cache, ps, i, fetch, tasks, origins, start);
    }
  }

  /** What runs next: a discovery of this listing, or a step of another listing on the same
      cache: its question, its answer, its tiers on rows that the two have in common. */
  datatype Turn =
    | Own(task: nat)
    | OtherAsks(provider: Provider)
    | OtherStores(provider: Provider, tags: seq<string>)
    | OtherAnnotates(config: Config, provider: Provider, task: nat)

  /** Who asks about what in a turn, when these questions were put before: a discovery of this
      listing asks once, in its first turn. */
  function Question(ps: seq<Provider>, before: seq<(Option<nat>, Key)>, turn: Turn): seq<(Option<nat>, Key)> {
    match turn
    case Own(i) =>
      if i < |ps| && Asks(ps[i]) && forall n :: 0 <= n < |before| ==> before[n].0 != Some(i)
      then [(Some(i), KeyOf(ps[i]))] else []
    case OtherAsks(p) => [(None, KeyOf(p))]
    case _ => []
  }

  function Questions(ps: seq<Provider>, schedule: seq<Turn>): seq<(Option<nat>, Key)> {
    if schedule == [] then []
    else
      var n := |schedule| - 1;
      Questions(ps, schedule[..n]) + Question(ps, Questions(ps, schedule[..n]), schedule[n])
  }

  /** These questions were put, in this order, and no others. */
  ghost predicate Asked(before: seq<Read>, order: seq<(Option<nat>, Key)>, asked: seq<Read>) {
    && |asked| == |before| + |order| && before <= asked
    && forall n :: 0 <= n < |order| ==> (asked[|before| + n].who, asked[|before| + n].key) == order[n]
  }

  /** What the other listings were to store is stored. */
  ghost predicate OthersStored(schedule: seq<Turn>, before: seq<Fetch>, fetches: seq<Fetch>) {
    && before <= fetches
    && forall n :: 0 <= n < |schedule| && schedule[n].OtherStores? ==>
         StoredSince(before, fetches, KeyOf(schedule[n].provider), schedule[n].tags)
  }

  ghost predicate StoredSince(before: seq<Fetch>, fetches: seq<Fetch>, key: Key, tags: seq<string>) {
    exists m :: |before| <= m < |fetches| && fetches[m].key == key && fetches[m].tags == tags
  }

  lemma AskedOn(a: seq<Read>, first: seq<(Option<nat>, Key)>, b: seq<Read>, second: seq<(Option<nat>, Key)>,
                c: seq<Read>)
    requires Asked(a, first, b) && Asked(b, second, c)
    ensures Asked(a, first + second, c)
  {
    forall n | 0 <= n < |first + second|
      ensures (c[|a| + n].who, c[|a| + n].key) == (first + second)[n]
    {
      if n < |first| {
        assert c[|a| + n] == b[|a| + n];
      } else {
        assert c[|a| + n] == c[|b| + (n - |first|)];
      }
    }
  }

  /** A discovery still has to ask exactly when it has not asked yet. */
  lemma AskingIsUnasked(ps: seq<Provider>, tasks: seq<Task>, origins: seq<Origin>, fetch: nat -> Option<seq<string>>,
                        before: seq<Read>, order: seq<(Option<nat>, Key)>, asked: seq<Read>, i: nat)
    requires Asked(before, order, asked) && AllTold(tasks, origins, fetch, asked, |before|)
    requires i < |tasks| == |ps| && (tasks[i].Idle? <==> !Asks(ps[i]))
    ensures Question(ps, order, Own(i)) == if tasks[i].Asking? then [(Some(i), KeyOf(ps[i]))] else []
  {
    assert TaskTold(tasks[i], i, origins[i], fetch(i), asked, |before|);
    if tasks[i].Asking? {
      forall n | 0 <= n < |order| ensures order[n].0 != Some(i) {
        assert asked[|before| + n].who != Some(i);
      }
    } else if !tasks[i].Idle? {
      assert order[origins[i].turn - |before|].0 == Some(i);
    }
  }

  method OtherListing(cache: DiscoveryCache, turn: Turn, ps: seq<Provider>, tasks: seq<Task>,
                      ghost origins: seq<Origin>, ghost start: nat)
    requires TasksOk(cache, ps, tasks, origins, start) && !turn.Own?
    modifies cache, cache.rows
    ensures TasksOk(cache, ps, tasks, origins, start) && Grown(cache)
    ensures forall m :: |old(cache.asked)| <= m < |cache.asked| ==> cache.asked[m].who == None
    ensures Asked(old(cache.asked), if turn.OtherAsks? then [(None, KeyOf(turn.provider))] else [], cache.asked)
    ensures OthersStored([turn], old(cache.fetches), cache.fetches)
  {
    ghost var asked, fetches, rows := cache.asked, cache.fetches, cache.rows;
    match turn {
      case OtherAsks(p) =>
        var r;
        ghost var o;
        r, o := AskCache(cache, p, None);
      case OtherStores(p, tags) =>
        var models;
        ghost var f;
        models, f := StoreAnswer(cache, p, tags);
        assert cache.fetches[|fetches|] == f;
      case OtherAnnotates(c, p, i) =>
        if i < |tasks| && tasks[i].Listed? {
          assert TaskOk(tasks[i], i, ps[i], origins[i], asked, fetches, rows, start);
          AnnotateOne(c, Found(p, tasks[i].models));
        }
    }
    TasksStay(ps, tasks, origins, start, asked, fetches, rows, cache.asked, cache.fetches, cache.rows);
  }

  method TakeTurn(cache: DiscoveryCache, turn: Turn, ps: seq<Provider>, fetch: nat -> Option<seq<string>>,
                  tasks: seq<Task>,
                  ghost origins: seq<Origin>, ghost start: nat)
    returns (tasks': seq<Task>, ghost origins': seq<Origin>)
    requires TasksOk(cache, ps, tasks, origins, start) && AllTold(tasks, origins, fetch, cache.asked, start)
    modifies cache, cache.rows
    ensures TasksOk(cache, ps, tasks', origins', start) && Grown(cache) &&
            AllTold(tasks', origins', fetch, cache.asked, start)
    ensures OthersStored([turn], old(cache.fetches), cache.fetches)
    ensures Asked(old(cache.asked),
                  match turn
                  case Own(i) => if i < |ps| && tasks[i].Asking? then [(Some(i), KeyOf(ps[i]))] else []
                  case OtherAsks(p) => [(None, KeyOf(p))]
                  case _ => [],
                  cache.asked)
  {
    tasks', origins' := tasks, origins;
    if !turn.Own? {
      ghost var asked := cache.asked;
      OtherListing(cache, turn, ps, tasks, origins, start);
      forall i | 0 <= i < |tasks| ensures TaskTold(tasks[i], i, origins[i], fetch(i), cache.asked, start) {
        ToldStays(tasks[i], i, origins[i], fetch(i), asked, cache.asked, start);
      }
    } else if turn.task < |ps| {
      tasks', origins' := Resume(cache, ps, turn.task, fetch, tasks, origins, start);
    }
  }

  /** All discoveries, their halves interleaved in any order with each other and with other
      listings; those that the schedule leaves unfinished are awaited. */
  method RunTasks(cache: DiscoveryCache, ps: seq<Provider>, fetch: nat -> Option<seq<string>>, schedule: seq<Turn>)
    returns (tasks: seq<Task>, ghost origins: seq<Origin>)
    requires cache.Valid()
    modifies cache, cache.rows
    ensures TasksOk(cache, ps, tasks, origins, |old(cache.asked)|) && Grown(cache)
    ensures AllTold(tasks, origins, fetch, cache.asked, |old(cache.asked)|)
    ensures forall i :: 0 <= i < |tasks| ==> Ended(tasks[i])
    ensures Asked(old(cache.asked), Questions(ps, schedule + Awaited(|ps|)), cache.asked)
    ensures OthersStored(schedule, old(cache.fetches), cache.fetches)
  {
    ghost var asked, fetches := cache.asked, cache.fetches;
    tasks := seq(|ps|, i requires 0 <= i < |ps| => if Asks(ps[i]) then Asking else Idle);
    origins := seq(|ps|, i => Origin(0, Fetch(("", ""), 0.0, [])));
    for n := 0 to |schedule|
      invariant TasksOk(cache, ps, tasks, origins, |asked|) && Grown(cache) &&
                AllTold(tasks, origins, fetch, cache.asked, |asked|)
      invariant Asked(asked, Questions(ps, schedule[..n]), cache.asked)
      invariant OthersStored(schedule[..n], fetches, cache.fetches)
    {
      tasks, origins := PlayTurn(cache, schedule, n, ps, fetch, tasks, origins, asked, fetches);
    }
    assert schedule[..|schedule|] == schedule == schedule + Awaited(0);
    tasks, origins := AwaitAll(cache, schedule, ps, fetch, tasks, origins, asked);
  }

  method AwaitAll(cache: DiscoveryCache, ghost schedule: seq<Turn>, ps: seq<Provider>,
                  fetch: nat -> Option<seq<string>>, tasks: seq<Task>, ghost origins: seq<Origin>,
                  ghost asked: seq<Read>)
    returns (tasks': seq<Task>, ghost origins': seq<Origin>)
    requires TasksOk(cache, ps, tasks, origins, |asked|) && AllTold(tasks, origins, fetch, cache.asked, |asked|)
    requires Asked(asked, Questions(ps, schedule + Awaited(0)), cache.asked)
    modifies cache, cache.rows
    ensures TasksOk(cache, ps, tasks', origins', |asked|) && Grown(cache) &&
            AllTold(tasks', origins', fetch, cache.asked, |asked|)
    ensures forall i :: 0 <= i < |tasks'| ==> Ended(tasks'[i])
    ensures Asked(asked, Questions(ps, schedule + Awaited(|ps|)), cache.asked)
  {
    tasks', origins' := tasks, origins;
    for i := 0 to |ps|
      invariant TasksOk(cache, ps, tasks', origins', |asked|) && Grown(cache) &&
                AllTold(tasks', origins', fetch, cache.asked, |asked|)
      invariant forall j :: 0 <= j < i ==> Ended(tasks'[j])
      invariant Asked(asked, Questions(ps, schedule + Awaited(i)), cache.asked)
    {
      tasks', origins' := AwaitTask(cache, schedule, i, ps, fetch, tasks', origins', asked);
    }
  }

  /** Those left unfinished are awaited in the order of the providers. */
  function Awaited(n: nat): seq<Turn> {
    seq(n, i requires 0 <= i => Own(i))
  }

  lemma AwaitedOn(ps: seq<Provider>, schedule: seq<Turn>, i: nat, a: seq<Read>, b: seq<Read>, c: seq<Read>)
    requires Asked(a, Questions(ps, schedule + Awaited(i)), b)
    requires Asked(b, Question(ps, Questions(ps, schedule + Awaited(i)), Own(i)), c)
    ensures Asked(a, Questions(ps, schedule + Awaited(i + 1)), c)
  {
    var before, now := schedule + Awaited(i), schedule + Awaited(i + 1);
    assert now == before + [Own(i)] && now[..|now| - 1] == before;
    AskedOn(a, Questions(ps, before), b, Question(ps, Questions(ps, before), Own(i)), c);
  }

  /** Turn `n` of the schedule. */
  method PlayTurn(cache: DiscoveryCache, schedule: seq<Turn>, n: nat, ps: seq<Provider>,
                  fetch: nat -> Option<seq<string>>, tasks: seq<Task>, ghost origins: seq<Origin>,
                  ghost asked: seq<Read>, ghost fetches: seq<Fetch>)
    returns (tasks': seq<Task>, ghost origins': seq<Origin>)
    requires n < |schedule| && TasksOk(cache, ps, tasks, origins, |asked|)
    requires AllTold(tasks, origins, fetch, cache.asked, |asked|)
    requires Asked(asked, Questions(ps, schedule[..n]), cache.asked)
    requires OthersStored(schedule[..n], fetches, cache.fetches)
    modifies cache, cache.rows
    ensures TasksOk(cache, ps, tasks', origins', |asked|) && Grown(cache) &&
            AllTold(tasks', origins', fetch, cache.asked, |asked|)
    ensures Asked(asked, Questions(ps, schedule[..n + 1]), cache.asked)
    ensures OthersStored(schedule[..n + 1], fetches, cache.fetches)
  {
    ghost var order, middle, stored := Questions(ps, schedule[..n]), cache.asked, cache.fetches;
    if schedule[n].Own? && schedule[n].task < |ps| {
      AskingIsUnasked(ps, tasks, origins, fetch, asked, order, middle, schedule[n].task);
    }
    tasks', origins' := TakeTurn(cache, schedule[n], ps, fetch, tasks, origins, |asked|);
    AskedOn(asked, order, middle, Question(ps, order, schedule[n]), cache.asked);
    OthersStoredOn(schedule, n, fetches, stored, cache.fetches);
    assert schedule[..n + 1][..n] == schedule[..n];
  }

  lemma OthersStoredOn(schedule: seq<Turn>, n: nat, a: seq<Fetch>, b: seq<Fetch>, c: seq<Fetch>)
    requires n < |schedule| && OthersStored(schedule[..n], a, b) && OthersStored([schedule[n]], b, c)
    ensures OthersStored(schedule[..n + 1], a, c)
  {
    forall k | 0 <= k <= n && schedule[k].OtherStores?
      ensures StoredSince(a, c, KeyOf(schedule[k].provider), schedule[k].tags)
    {
      var key, tags := KeyOf(schedule[k].provider), schedule[k].tags;
      if k < n {
        assert schedule[..n][k] == schedule[k];
        var m :| |a| <= m < |b| && b[m].key == key && b[m].tags == tags;
        assert c[m] == b[m];
      } else {
        assert [schedule[n]][0] == schedule[k];
        var m :| |b| <= m < |c| && c[m].key == key && c[m].tags == tags;
        assert |a| <= m;
      }
    }
  }

  /** Task `i` runs to its end. */
  method AwaitTask(cache: DiscoveryCache, ghost schedule: seq<Turn>, i: nat, ps: seq<Provider>,
                   fetch: nat -> Option<seq<string>>, tasks: seq<Task>, ghost origins: seq<Origin>,
                   ghost asked: seq<Read>)
    returns (tasks': seq<Task>, ghost origins': seq<Origin>)
    requires i < |ps| && TasksOk(cache, ps, tasks, origins, |asked|)
    requires AllTold(tasks, origins, fetch, cache.asked, |asked|)
    requires Asked(asked, Questions(ps, schedule + Awaited(i)), cache.asked)
    modifies cache, cache.rows
    ensures TasksOk(cache, ps, tasks', origins', |asked|) && Grown(cache) &&
            AllTold(tasks', origins', fetch, cache.asked, |asked|)
    ensures tasks' == tasks[i := tasks'[i]] && Ended(tasks'[i])
    ensures Asked(asked, Questions(ps, schedule + Awaited(i + 1)), cache.asked)
  {
    ghost var middle := cache.asked;
    AskingIsUnasked(ps, tasks, origins, fetch, asked, Questions(ps, schedule + Awaited(i)), middle, i);
    tasks', origins' := Resume(cache, ps, i, fetch, tasks, origins, |asked|);
    AwaitedOn(ps, schedule, i, asked, middle, cache.asked);
    if tasks'[i].Fetching? {
      tasks', origins' := Resume(cache, ps, i, fetch, tasks', origins', |asked|);
    }
  }

  /** Provider `i` is listed exactly when its own question was a hit or it answered. */
  ghost predicate ListedIfAnswered(i: nat, slots: seq<nat>, fetch: nat -> Option<seq<string>>, asked: seq<Read>,
                                   start: nat) {
    exists n: nat :: OwnRead(asked, start, i, n) && (i in slots <==> asked[n].hit || fetch(i).Some?)
  }

  /** The first `n` providers are listed if they should be, each after a miss with what it
      answered. */
  ghost predicate Complete(origins: seq<Origin>, slots: seq<nat>, ps: seq<Provider>, n: nat,
                           fetch: nat -> Option<seq<string>>, asked: seq<Read>, start: nat)
    requires n <= |ps|
  {
    && |origins| == |slots| && (forall k :: 0 <= k < |slots| ==> slots[k] < n)
    && (forall i :: 0 <= i < n && Asks(ps[i]) ==> ListedIfAnswered(i, slots, fetch, asked, start))
    && (forall k :: 0 <= k < |slots| ==>
          origins[k].turn < |asked| && (!asked[origins[k].turn].hit ==> fetch(slots[k]) == Some(origins[k].fetch.tags)))
  }

  lemma CompleteOneMore(tasks: seq<Task>, stored: seq<Origin>, ps: seq<Provider>, i: nat,
                        fetch: nat -> Option<seq<string>>,
                        asked: seq<Read>, start: nat, origins: seq<Origin>, slots: seq<nat>)
    requires |tasks| == |ps| && i < |ps| && AllTold(tasks, stored, fetch, asked, start)
    requires Ended(tasks[i]) && (tasks[i].Idle? <==> !Asks(ps[i])) &&
             Complete(origins, slots, ps, i, fetch, asked, start)
    ensures if tasks[i].Listed? then Complete(origins + [stored[i]], slots + [i], ps, i + 1, fetch, asked, start)
            else Complete(origins, slots, ps, i + 1, fetch, asked, start)
  {
    assert TaskTold(tasks[i], i, stored[i], fetch(i), asked, start);
    ListedOneMore(tasks[i], stored[i], ps, i, fetch, asked, start, slots);
  }

  lemma ListedOneMore(t: Task, o: Origin, ps: seq<Provider>, i: nat, fetch: nat -> Option<seq<string>>,
                      asked: seq<Read>, start: nat, slots: seq<nat>)
    requires i < |ps| && TaskTold(t, i, o, fetch(i), asked, start) && Ended(t) && (t.Idle? <==> !Asks(ps[i]))
    requires forall k :: 0 <= k < |slots| ==> slots[k] < i
    requires forall j :: 0 <= j < i && Asks(ps[j]) ==> ListedIfAnswered(j, slots, fetch, asked, start)
    ensures forall j :: 0 <= j <= i && Asks(ps[j]) ==>
              ListedIfAnswered(j, if t.Listed? then slots + [i] else slots, fetch, asked, start)
  {
    var slots' := if t.Listed? then slots + [i] else slots;
    forall j | 0 <= j <= i && Asks(ps[j]) ensures ListedIfAnswered(j, slots', fetch, asked, start) {
      if j < i {
        assert ListedIfAnswered(j, slots, fetch, asked, start);
        var n: nat :| OwnRead(asked, start, j, n) && (j in slots <==> asked[n].hit || fetch(j).Some?);
        assert j in slots' <==> j in slots;
      } else {
        assert i !in slots;
        assert OwnRead(asked, start, i, o.turn);
      }
    }
  }

  /** The results in the order of the providers; one that raised is left out. */
  method Collect(cache: DiscoveryCache, ps: seq<Provider>, tasks: seq<Task>, ghost stored: seq<Origin>,
                 ghost fetch: nat -> Option<seq<string>>, ghost start: nat)
    returns (found: seq<Found>, ghost origins: seq<Origin>, ghost slots: seq<nat>)
    requires TasksOk(cache, ps, tasks, stored, start) && AllTold(tasks, stored, fetch, cache.asked, start)
    requires forall i :: 0 <= i < |tasks| ==> Ended(tasks[i])
    ensures Gathered(cache, found, origins, slots, ps, |ps|, start)
    ensures Complete(origins, slots, ps, |ps|, fetch, cache.asked, start)
  {
    found, origins, slots := [], [], [];
    for i := 0 to |ps|
      invariant Gathered(cache, found, origins, slots, ps, i, start)
      invariant Complete(origins, slots, ps, i, fetch, cache.asked, start)
    {
      assert TaskOk(tasks[i], i, ps[i], stored[i], cache.asked, cache.fetches, cache.rows, start);
      CompleteOneMore(tasks, stored, ps, i, fetch, cache.asked, start, origins, slots);
      FoundOneMore(cache, ps, tasks, stored, start, found, origins, slots, i);
      if tasks[i].Listed? {
        found, origins, slots := found + [Found(ps[i], tasks[i].models)], origins + [stored[i]], slots + [i];
      }
    }
  }

  method Gather(cache: DiscoveryCache, ps: seq<Provider>, fetch: nat -> Option<seq<string>>, schedule: seq<Turn>)
    returns (found: seq<Found>, ghost origins: seq<Origin>, ghost slots: seq<nat>)
    requires cache.Valid()
    modifies cache, cache.rows
    ensures Gathered(cache, found, origins, slots, ps, |ps|, |old(cache.asked)|) && Grown(cache)
    ensures Complete(origins, slots, ps, |ps|, fetch, cache.asked, |old(cache.asked)|)
    ensures Asked(old(cache.asked), Questions(ps, schedule + Awaited(|ps|)), cache.asked)
    ensures OthersStored(schedule, old(cache.fetches), cache.fetches)
  {
    ghost var start := |cache.asked|;
    var tasks;
    ghost var stored;
    tasks, stored := RunTasks(cache, ps, fetch, schedule);
    found, origins, slots := Collect(cache, ps, tasks, stored, fetch, start);
  }

  lemma FoundOneMore(cache: DiscoveryCache, ps: seq<Provider>, tasks: seq<Task>, stored: seq<Origin>, start: nat,
                     found: seq<Found>, origins: seq<Origin>, slots: seq<nat>, i: nat)
    requires TasksOk(cache, ps, tasks, stored, start) && i < |ps| &&
             Gathered(cache, found, origins, slots, ps, i, start)
    ensures if tasks[i].Listed?
            then Gathered(cache, found + [Found(ps[i], tasks[i].models)], origins + [stored[i]], slots + [i], ps,
                          i + 1, start)
            else Gathered(cache, found, origins, slots, ps, i + 1, start)
  {
    assert TaskOk(tasks[i], i, ps[i], stored[i], cache.asked, cache.fetches, cache.rows, start);
    PlacedOneMore(found, slots, ps, i, Found(ps[i], if tasks[i].Listed? then tasks[i].models else []));
  }

  /** Which providers are discovered, and which of those are listed: those that answered or
      that the cache had; and no others. */
  lemma AnsweredIsListed(ps: seq<Provider>, i: nat, found: seq<Found>, origins: seq<Origin>, slots: seq<nat>,
                         fetch: nat -> Option<seq<string>>, asked: seq<Read>, start: nat)
    requires i < |ps| && Complete(origins, slots, ps, |ps|, fetch, asked, start) && Placed(found, slots, ps)
    ensures ps[i].enabled && ps[i].kind in {"ollama", "anthropic", "openai", "openai_compatible"} && fetch(i).Some? ==>
              i in slots
    ensures i in slots ==> ps[i].enabled && ps[i].kind in {"ollama", "anthropic", "openai", "openai_compatible"}
  {
    if Asks(ps[i]) {
      assert ListedIfAnswered(i, slots, fetch, asked, start);
    }
  }

  /** How old listed rows can be: a minute for a local server, five minutes for a catalogue. */
  lemma AgesBounded(found: seq<Found>, origins: seq<Origin>, slots: seq<nat>, asked: seq<Read>, fetches: seq<Fetch>,
                    start: nat, k: nat)
    requires CurrentAll(found, origins, slots, asked, fetches, start) && k < |found|
    ensures origins[k].turn < |asked|
    ensures asked[origins[k].turn].at - origins[k].fetch.at <= if found[k].provider.kind == "ollama" then 60.0
            else 300.0
  {
  }

  /** Two providers share cached rows exactly when they have one name and one kind, where the
      two kinds that speak the same protocol count as one. */
  lemma SharedKeys(p: Provider, q: Provider)
    requires Discoverable(p) && Discoverable(q)
    ensures KeyOf(p) == KeyOf(q) <==>
            p.name == q.name && (p.kind == q.kind || {p.kind, q.kind} == {"openai", "openai_compatible"})
  {
    assert |"openai"| != |"openai_compatible"|;
  }

  // ---- tiers, written in place ------------------------------------------------------

  function Merged(found: seq<Found>): seq<ModelRow> {
    if found == [] then [] else Merged(found[..|found| - 1]) + found[|found| - 1].models
  }

  /** Among the first `n` findings, `k` is the last one with this row. */
  predicate LastWith(found: seq<Found>, n: nat, k: nat, m: ModelRow)
    requires k < n <= |found|
  {
    m in found[k].models && forall l :: k < l < n ==> m !in found[l].models
  }

  /** A row shows the tier of the last provider that listed it. */
  ghost predicate Annotated(c: Config, found: seq<Found>, n: nat, rows: set<ModelRow>)
    requires n <= |found|
    reads rows
  {
    forall k, m :: 0 <= k < n && m in rows && LastWith(found, n, k, m) ==>
             m.tier == Some(TierFor(c, found[k].provider, m.id))
  }

  method AnnotateOne(c: Config, f: Found)
    modifies set m | m in f.models
    ensures forall m :: m in f.models ==> m.tier == Some(TierFor(c, f.provider, m.id))
  {
    for j := 0 to |f.models|
      invariant forall i :: 0 <= i < j ==> f.models[i].tier == Some(TierFor(c, f.provider, f.models[i].id))
    {
      f.models[j].tier := Some(DeriveTier(f.provider, NativePart(f.models[j].id), c.settings.tiers));
    }
  }

  method AnnotateNext(c: Config, found: seq<Found>, n: nat, ghost rows: set<ModelRow>)
    requires n < |found| && AllHeld(found, rows) && Annotated(c, found, n, rows)
    modifies rows
    ensures Annotated(c, found, n + 1, rows)
  {
    AnnotateOne(c, found[n]);
    forall k, m | 0 <= k <= n && m in rows && LastWith(found, n + 1, k, m)
      ensures m.tier == Some(TierFor(c, found[k].provider, m.id))
    {
      if k < n {
        assert m !in found[n].models && LastWith(found, n, k, m);
        assert m.tier == old(m.tier);
      }
    }
  }

  method AnnotateAll(c: Config, found: seq<Found>, ghost rows: set<ModelRow>) returns (out: seq<ModelRow>)
    requires AllHeld(found, rows)
    modifies rows
    ensures out == Merged(found) && Annotated(c, found, |found|, rows)
  {
    out := [];
    for n := 0 to |found|
      invariant out == Merged(found[..n]) && Annotated(c, found, n, rows)
    {
      AnnotateNext(c, found, n, rows);
      out := out + found[n].models;
      assert found[..n + 1][..n] == found[..n];
    }
    assert found[..|found|] == found;
  }

  /** The rows of each provider stand together, after those of the providers before it. */
  lemma {:induction false} MergedInOrder(found: seq<Found>, more: seq<Found>, f: Found)
    ensures Merged(found + more) == Merged(found) + Merged(more) && Merged([f]) == f.models
    decreases |more|
  {
    assert [f][..0] == [];
    if more == [] {
      assert found + more == found;
    } else {
      MergedInOrder(found, more[..|more| - 1], f);
      assert (found + more)[..|found + more| - 1] == found + more[..|more| - 1];
    }
  }

  /** With one provider per source and name no row is listed twice. */
  lemma DistinctMeansOnce(cache: DiscoveryCache, found: seq<Found>, origins: seq<Origin>, slots: seq<nat>,
                          ps: seq<Provider>,
                          start: nat)
    requires Gathered(cache, found, origins, slots, ps, |ps|, start) && DistinctKeys(ps)
    ensures forall k, m :: 0 <= k < |found| && m in found[k].models ==> LastWith(found, |found|, k, m)
  {
    assert ps[..|ps|] == ps;
    forall k, l, m | 0 <= k < l < |found| && m in found[k].models ensures m !in found[l].models {
      assert KeyOf(ps[slots[k]]) != KeyOf(ps[slots[l]]);
      assert Current(found[k], origins[k], Some(slots[k]), cache.asked, cache.fetches);
      assert Current(found[l], origins[l], Some(slots[l]), cache.asked, cache.fetches);
    }
  }

  method ListAliases(c: Config) returns (out: seq<ModelRow>)
    ensures |out| == |c.aliases| && forall m :: m in out ==> fresh(m)
    ensures forall i :: 0 <= i < |out| ==>
            Row(out[i].id, out[i].tier) == Row(c.aliases[i].name, Badge(c, c.aliases[i].alias))
  {
    out := [];
    for i := 0 to |c.aliases|
      invariant |out| == i && forall m :: m in out ==> fresh(m)
      invariant forall j :: 0 <= j < i ==>
              Row(out[j].id, out[j].tier) == Row(c.aliases[j].name, Badge(c, c.aliases[j].alias))
    {
      var row := new ModelRow(c.aliases[i].name, "lq-ai-gateway", Badge(c, c.aliases[i].alias), None);
      out := out + [row];
    }
  }

  /** These rows are listed. */
  ghost predicate Shows(out: seq<ModelRow>, rows: seq<Row>)
    reads out
  {
    |out| == |rows| && forall i :: 0 <= i < |out| ==> Row(out[i].id, out[i].tier) == rows[i]
  }

  /** The configured models of one Bedrock provider. */
  method ListCatalogue(c: Config, p: Provider) returns (out: seq<ModelRow>)
    ensures Shows(out, CatalogueOf(c, p)) && forall m :: m in out ==> fresh(m)
  {
    out := [];
    for i := 0 to |p.models|
      invariant |out| == i && forall m :: m in out ==> fresh(m)
      invariant forall j :: 0 <= j < i ==> Row(out[j].id, out[j].tier) == CatalogueOf(c, p)[j]
    {
      var tier := DeriveTier(p, p.models[i], c.settings.tiers);
      var row := new ModelRow(p.name + "/" + p.models[i], p.name, Some(tier), None);
      out := out + [row];
    }
  }

  /** The discovered part of a listing: each provider's rows are those of one stored answer,
      recent when this listing asked for it, and show the tiers of the configuration passed
      in, whatever a cached row showed before. */
  ghost predicate Discovered(cache: DiscoveryCache, c: Config, found: seq<Found>, origins: seq<Origin>,
                             slots: seq<nat>, start: nat)
    reads cache, cache.rows
  {
    && cache.Valid() && Placed(found, slots, c.providers)
    && CurrentAll(found, origins, slots, cache.asked, cache.fetches, start)
    && AllHeld(found, cache.rows) && Annotated(c, found, |found|, cache.rows)
    && (DistinctKeys(c.providers) ==> EachTierOwn(c, found, cache.rows))
  }

  ghost predicate EachTierOwn(c: Config, found: seq<Found>, rows: set<ModelRow>)
    reads rows
  {
    forall k, m :: 0 <= k < |found| && m in found[k].models && m in rows ==>
             m.tier == Some(TierFor(c, found[k].provider, m.id))
  }

  method ListDiscovered(cache: DiscoveryCache, c: Config, fetch: nat -> Option<seq<string>>, schedule: seq<Turn>)
    returns (out: seq<ModelRow>, found: seq<Found>, ghost origins: seq<Origin>, ghost slots: seq<nat>)
    requires cache.Valid()
    modifies cache, cache.rows
    ensures out == Merged(found) && Discovered(cache, c, found, origins, slots, |old(cache.asked)|)
    ensures Complete(origins, slots, c.providers, |c.providers|, fetch, cache.asked, |old(cache.asked)|)
    ensures Asked(old(cache.asked), Questions(c.providers, schedule + Awaited(|c.providers|)), cache.asked)
    ensures OthersStored(schedule, old(cache.fetches), cache.fetches)
  {
    ghost var start := |cache.asked|;
    found, origins, slots := Gather(cache, c.providers, fetch, schedule);
    out := AnnotateAll(c, found, cache.rows);
    assert c.providers[..|c.providers|] == c.providers;
    if DistinctKeys(c.providers) {
      DistinctMeansOnce(cache, found, origins, slots, c.providers, start);
    }
  }

  /** The configured part: each model of each enabled Bedrock provider with a usable key. */
  function CatalogueRows(c: Config, keyResolves: Provider -> bool, ps: seq<Provider>): seq<Row> {
    if ps == [] then []
    else
      var p := ps[|ps| - 1];
      CatalogueRows(c, keyResolves, ps[..|ps| - 1]) +
      if p.enabled && PublishesCatalogue(p) && keyResolves(p) then CatalogueOf(c, p) else []
  }

  function CatalogueOf(c: Config, p: Provider): seq<Row> {
    seq(|p.models|, j requires 0 <= j < |p.models| =>
      Row(NativeId(p, p.models[j]), Some(MakeTarget(c, p, p.models[j], Primary).tier)))
  }

  lemma CatalogueOfMeans(c: Config, keyResolves: Provider -> bool, p: Provider, row: Row)
    ensures p.enabled && PublishesCatalogue(p) && keyResolves(p) && row in CatalogueOf(c, p) <==>
            exists model :: CatalogueRow(c, keyResolves, p, model, row)
  {
    if row in CatalogueOf(c, p) && p.enabled && PublishesCatalogue(p) && keyResolves(p) {
      var j :| 0 <= j < |CatalogueOf(c, p)| && CatalogueOf(c, p)[j] == row;
      assert CatalogueRow(c, keyResolves, p, p.models[j], row);
    }
    if model :| CatalogueRow(c, keyResolves, p, model, row) {
      var j :| 0 <= j < |p.models| && p.models[j] == model;
      assert CatalogueOf(c, p)[j] == row;
    }
  }

  /** A configured row is a model of an enabled Bedrock provider that names its protocol and whose
      key resolves, under the provider's name; and every such model has its row. */
  lemma {:induction false} CatalogueMeans(c: Config, keyResolves: Provider -> bool, ps: seq<Provider>, row: Row)
    ensures row in CatalogueRows(c, keyResolves, ps) <==>
            exists p, model :: p in ps && CatalogueRow(c, keyResolves, p, model, row)
    decreases |ps|
  {
    if ps != [] {
      var front, last := ps[..|ps| - 1], ps[|ps| - 1];
      CatalogueMeans(c, keyResolves, front, row);
      CatalogueOfMeans(c, keyResolves, last, row);
      assert ps == front + [last];
      if model :| CatalogueRow(c, keyResolves, last, model, row) {
        assert last in ps;
      }
      if p, model :| p in ps && CatalogueRow(c, keyResolves, p, model, row) {
        assert p in front || p == last;
      }
    }
  }

  /** They stand in the order of the providers: those of provider `n` follow those of the
      providers before it. */
  lemma {:induction false} CatalogueInOrder(c: Config, keyResolves: Provider -> bool, ps: seq<Provider>, n: nat)
    requires n < |ps|
    ensures CatalogueRows(c, keyResolves, ps[..n]) + CatalogueRows(c, keyResolves, [ps[n]]) <=
            CatalogueRows(c, keyResolves, ps)
    decreases |ps|
  {
    CatalogueOneMore(c, keyResolves, ps, n);
    CataloguePrefix(c, keyResolves, ps, n + 1);
  }

  lemma CatalogueOneMore(c: Config, keyResolves: Provider -> bool, ps: seq<Provider>, n: nat)
    requires n < |ps|
    ensures CatalogueRows(c, keyResolves, ps[..n]) + CatalogueRows(c, keyResolves, [ps[n]]) ==
            CatalogueRows(c, keyResolves, ps[..n + 1])
  {
    var p := ps[n];
    var share := if p.enabled && PublishesCatalogue(p) && keyResolves(p) then CatalogueOf(c, p) else [];
    CatalogueNext(c, keyResolves, ps, n);
    CatalogueNext(c, keyResolves, [p], 0);
    assert [p][..1] == [p] && [p][..0] == [];
    assert CatalogueRows(c, keyResolves, [p]) == [] + share == share;
  }

  lemma {:induction false} CataloguePrefix(c: Config, keyResolves: Provider -> bool, ps: seq<Provider>, n: nat)
    requires n <= |ps|
    ensures CatalogueRows(c, keyResolves, ps[..n]) <= CatalogueRows(c, keyResolves, ps)
    decreases |ps|
  {
    if n == |ps| {
      assert ps[..n] == ps;
    } else {
      assert ps[..|ps| - 1][..n] == ps[..n];
      CataloguePrefix(c, keyResolves, ps[..|ps| - 1], n);
    }
  }

  lemma CatalogueNext(c: Config, keyResolves: Provider -> bool, ps: seq<Provider>, n: nat)
    requires n < |ps|
    ensures CatalogueRows(c, keyResolves, ps[..n + 1]) ==
            CatalogueRows(c, keyResolves, ps[..n]) +
            if ps[n].enabled && PublishesCatalogue(ps[n]) && keyResolves(ps[n]) then CatalogueOf(c, ps[n]) else []
  {
    assert ps[..n + 1][..n] == ps[..n];
  }

  /** One provider's rows, in the order of its own list. */
  lemma CatalogueOfOne(c: Config, keyResolves: Provider -> bool, p: Provider, j: nat)
    requires j < |CatalogueRows(c, keyResolves, [p])|
    ensures |p.models| == |CatalogueRows(c, keyResolves, [p])|
    ensures CatalogueRows(c, keyResolves, [p])[j].id == p.name + "/" + p.models[j]
  {
    CatalogueNext(c, keyResolves, [p], 0);
    assert [p][..1] == [p] && [p][..0] == [];
  }

  predicate CatalogueRow(c: Config, keyResolves: Provider -> bool, p: Provider, model: string, row: Row) {
    && p.enabled && p.kind == "bedrock" && Find(p.details, "bedrock_protocol").Some?
    && Find(p.details, "bedrock_protocol") != Some(Null) && keyResolves(p) && model in p.models
    && row.id == p.name + "/" + model && row.tier == Some(DeriveTier(p, model, c.settings.tiers))
  }

  /** The configured models of the next provider, if it publishes any. */
  method ListNext(c: Config, keyResolves: Provider -> bool, n: nat, out: seq<ModelRow>) returns (out': seq<ModelRow>)
    requires n < |c.providers| && Shows(out, CatalogueRows(c, keyResolves, c.providers[..n]))
    ensures Shows(out', CatalogueRows(c, keyResolves, c.providers[..n + 1]))
    ensures forall m :: m in out' ==> m in out || fresh(m)
  {
    var p := c.providers[n];
    CatalogueNext(c, keyResolves, c.providers, n);
    out' := out;
    if p.enabled && PublishesCatalogue(p) && keyResolves(p) {
      var rows := ListCatalogue(c, p);
      ShowsBoth(out, CatalogueRows(c, keyResolves, c.providers[..n]), rows, CatalogueOf(c, p));
      out' := out + rows;
    }
  }

  lemma ShowsBoth(a: seq<ModelRow>, x: seq<Row>, b: seq<ModelRow>, y: seq<Row>)
    requires Shows(a, x) && Shows(b, y)
    ensures Shows(a + b, x + y)
  {
  }

  method ListCatalogues(c: Config, keyResolves: Provider -> bool) returns (out: seq<ModelRow>)
    ensures Shows(out, CatalogueRows(c, keyResolves, c.providers)) && forall m :: m in out ==> fresh(m)
  {
    out := [];
    for n := 0 to |c.providers|
      invariant Shows(out, CatalogueRows(c, keyResolves, c.providers[..n])) && forall m :: m in out ==> fresh(m)
    {
      out := ListNext(c, keyResolves, n, out);
    }
    assert c.providers[..|c.providers|] == c.providers;
  }

  /** A row's tier is computed for the very model that was listed exactly when the
      provider's name has no slash; then asking for the row's id gives that provider,
      model and tier. */
  lemma ListedRowResolves(c: Config, p: Provider, tag: string)
    ensures NativePart(NativeId(p, tag)) == tag <==> '/' !in p.name
    ensures '/' !in p.name && ProviderByName(c.providers, p.name) == Some(p) && tag != "" &&
            IsNative(c.aliases, NativeId(p, tag)) ==>
              Resolve(c, NativeId(p, tag)) ==
                Resolved([ResolvedTarget(p, tag, TierFor(c, p, NativeId(p, tag)), Primary)])
  {
    var id := NativeId(p, tag);
    FirstSlashFinds(id);
    if '/' !in p.name {
      SlashAfterPrefix(p.name, tag);
      assert id[|p.name| + 1..] == tag;
      if IsNative(c.aliases, id) {
        NativeIdRoundTrip(c, p, tag);
      }
    } else {
      var k :| 0 <= k < |p.name| && p.name[k] == '/';
      assert id[k] == '/' && id[|p.name|] == '/';
      assert |NativePart(id)| > |tag|;
    }
  }

  /** A listed row can be asked for: it names an enabled provider and a model, and unless
      the name has a slash or is not the first of its kind, the model is empty or the id is
      an alias, its id resolves to that provider and model alone, at the tier it shows. */
  ghost predicate RowResolves(c: Config, m: ModelRow)
    reads m
  {
    exists p, tag :: p in c.providers && p.enabled && RowResolvesTo(c, p, tag, m.id, m.tier)
  }

  predicate RowResolvesTo(c: Config, p: Provider, tag: string, id: string, tier: Option<InferenceTier>) {
    && id == NativeId(p, tag)
    && ('/' !in p.name && ProviderByName(c.providers, p.name) == Some(p) && tag != "" && IsNative(c.aliases, id) ==>
          tier.Some? && Resolve(c, id) == Resolved([ResolvedTarget(p, tag, tier.value, Primary)]))
  }

  lemma FoundRowResolves(cache: DiscoveryCache, c: Config, found: seq<Found>, origins: seq<Origin>, slots: seq<nat>,
                         start: nat,
                         k: nat, m: ModelRow)
    requires Discovered(cache, c, found, origins, slots, start) && DistinctKeys(c.providers)
    requires k < |found| && m in found[k].models
    ensures RowResolves(c, m)
  {
    var p, fetch := found[k].provider, origins[k].fetch;
    assert Current(found[k], origins[k], Some(slots[k]), cache.asked, cache.fetches);
    var j :| 0 <= j < |found[k].models| && found[k].models[j] == m;
    var tag := fetch.tags[j];
    assert p == c.providers[slots[k]];
    assert m in cache.rows && m.tier == Some(TierFor(c, p, m.id));
    ListedRowResolves(c, p, tag);
    assert RowResolvesTo(c, p, tag, m.id, m.tier);
  }

  /** Every discovered row of a listing with distinct keys. */
  lemma DiscoveredRowsResolve(cache: DiscoveryCache, c: Config, found: seq<Found>, origins: seq<Origin>,
                              slots: seq<nat>, start: nat)
    requires Discovered(cache, c, found, origins, slots, start) && DistinctKeys(c.providers)
    ensures forall m :: m in Merged(found) ==> RowResolves(c, m)
  {
    forall m | m in Merged(found) ensures RowResolves(c, m) {
      var k := MergedFrom(found, m);
      FoundRowResolves(cache, c, found, origins, slots, start, k, m);
    }
  }

  lemma {:induction false} MergedFrom(found: seq<Found>, m: ModelRow) returns (k: nat)
    requires m in Merged(found)
    ensures k < |found| && m in found[k].models
    decreases |found|
  {
    var n := |found| - 1;
    if m in found[n].models {
      k := n;
    } else {
      k := MergedFrom(found[..n], m);
    }
  }

  /** The aliases in order, then the configured Bedrock models in order. */
  ghost predicate ConfiguredPart(c: Config, keyResolves: Provider -> bool, head: seq<ModelRow>)
    reads head
  {
    var rows := CatalogueRows(c, keyResolves, c.providers);
    var n := |c.aliases|;
    && |head| == n + |rows|
    && (forall i :: 0 <= i < n ==>
          Row(head[i].id, head[i].tier) == Row(c.aliases[i].name, Badge(c, c.aliases[i].alias)))
    && (forall i :: 0 <= i < |rows| ==> Row(head[n + i].id, head[n + i].tier) == rows[i])
  }

  method ListConfigured(c: Config, keyResolves: Provider -> bool) returns (head: seq<ModelRow>)
    ensures ConfiguredPart(c, keyResolves, head) && forall m :: m in head ==> fresh(m)
  {
    var aliases := ListAliases(c);
    var configured := ListCatalogues(c, keyResolves);
    head := aliases + configured;
  }

  /** The whole listing: the configured part, then the discovered models. */
  method ListAll(cache: DiscoveryCache, c: Config, fetch: nat -> Option<seq<string>>, schedule: seq<Turn>,
                 keyResolves: Provider -> bool)
    returns (out: seq<ModelRow>, ghost head: seq<ModelRow>, found: seq<Found>, ghost origins: seq<Origin>,
             ghost slots: seq<nat>)
    requires cache.Valid()
    modifies cache, cache.rows
    ensures out == head + Merged(found) && ConfiguredPart(c, keyResolves, head)
    ensures Discovered(cache, c, found, origins, slots, |old(cache.asked)|)
    ensures Complete(origins, slots, c.providers, |c.providers|, fetch, cache.asked, |old(cache.asked)|)
    ensures Asked(old(cache.asked), Questions(c.providers, schedule + Awaited(|c.providers|)), cache.asked)
    ensures OthersStored(schedule, old(cache.fetches), cache.fetches)
    ensures DistinctKeys(c.providers) ==> forall m :: m in Merged(found) ==> RowResolves(c, m)
  {
    ghost var start := |cache.asked|;
    var discovered, configured;
    discovered, found, origins, slots := ListDiscovered(cache, c, fetch, schedule);
    configured := ListConfigured(c, keyResolves);
    if DistinctKeys(c.providers) {
      DiscoveredRowsResolve(cache, c, found, origins, slots, start);
    }
    head := configured;
    out := configured + discovered;
  }

  /** Two enabled providers of one source and name share cached rows: while the entry
      lives, both are listed with the tier of the second. */
  method SharedRowsShowTheLaterTier(cache: DiscoveryCache, c: Config, p: Provider, q: Provider,
                                    fetch: nat -> Option<seq<string>>)
    returns (found: seq<Found>)
    requires cache.Valid() && Discoverable(p) && Discoverable(q) && KeyOf(p) == KeyOf(q) && Ttl(p) == Ttl(q)
    requires Hit(p, cache.entries, cache.clock(cache.ticks)) && Hit(q, cache.entries, cache.clock(cache.ticks + 1))
    modifies cache, cache.rows
    ensures |found| == 2 && found[0].models == found[1].models == old(cache.entries)[KeyOf(p)].models
    ensures forall m :: m in found[0].models ==>
              (m.tier == Some(TierFor(c, p, m.id)) <==> TierFor(c, p, m.id) == TierFor(c, q, m.id))
  {
    var first, second;
    ghost var a, b;
    first, a := Discover(cache, p, fetch(0));
    second, b := Discover(cache, q, fetch(1));
    found := [Found(p, first.value), Found(q, second.value)];
    var out := AnnotateAll(c, found, cache.rows);
    assert forall m :: m in found[0].models ==> LastWith(found, 2, 1, m);
  }
}
