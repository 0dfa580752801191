/**
 * Do cached answers agree with the queries they stand for? Service calls and cached reads run one after another here;
 * how the cache names its entries is a parameter, since it decides what the invalidation patterns can reach.
 */
module CacheAgreement {
  import opened Prelude
  import opened Keys
  import opened World
  import opened Glob
  import opened CacheService

  const EXPIRE := 60

  /** The two cached reads that every change is meant to invalidate. */
  datatype Query = Recent(skip: nat, limit: nat) | BatchById(batch: Uuid)

  datatype Response =
    | RecentPage(items: seq<Prediction>, total: nat, skip: nat, limit: nat)
    | BatchView(row: Batch, documentCount: nat)

  /** The key under which a query is cached; `variant` stands for whatever else the key depends on. */
  type KeyOf = (Query, nat) -> string

  /** Predictions come newest first; batches that do not exist are refused and not cached. */
  function Uncached(w: World, q: Query): Option<Response> {
    match q
    case Recent(skip, limit) =>
      var n := |w.predictions|;
      var count := if n <= skip then 0 else if n - skip <= limit then n - skip else limit;
      Some(RecentPage(seq(count, i requires 0 <= i < count => w.predictions[n - 1 - skip - i]), n, skip, limit))
    case BatchById(batch) =>
      if batch in w.batches then Some(BatchView(w.batches[batch], |PredictionsOf(w.predictions, batch)|)) else None
  }

  /** The row inserted last comes first. */
  function NewestFirst(rows: seq<Prediction>): seq<Prediction> {
    if rows == [] then [] else [rows[|rows| - 1]] + NewestFirst(rows[..|rows| - 1])
  }

  function Window(rows: seq<Prediction>, skip: nat, limit: nat): seq<Prediction> {
    if |rows| <= skip then [] else if |rows| <= skip + limit then rows[skip..] else rows[skip..skip + limit]
  }

  lemma {:induction false} NewestFirstAt(rows: seq<Prediction>)
    ensures |NewestFirst(rows)| == |rows|
    ensures forall i | 0 <= i < |rows| :: NewestFirst(rows)[i] == rows[|rows| - 1 - i]
  {
    if rows != [] {
      NewestFirstAt(rows[..|rows| - 1]);
    }
  }

  /** The recent list is a window of all predictions, newest first, with the number of them all. */
  lemma RecentIsNewestFirst(w: World, skip: nat, limit: nat)
    ensures Uncached(w, Recent(skip, limit)) ==
      Some(RecentPage(Window(NewestFirst(w.predictions), skip, limit), |w.predictions|, skip, limit))
  {
    NewestFirstAt(w.predictions);
    assert Uncached(w, Recent(skip, limit)).value.items == Window(NewestFirst(w.predictions), skip, limit);
  }

  // ---------------------------------------------------------------- service calls

  datatype Call =
    | CreatePendingBatch(id: Uuid, path: string, owner: Option<Uuid>)
    | SavePrediction(row: Prediction)
    | SaveAndComplete(row: Prediction)
    | RelabelPrediction(pid: nat, update: PredictionUpdate)
    | UpdateBatch(batch: Uuid, status: Field<BatchStatus>)

  /** The commits of a call, in order; none when the call raises or finds nothing. */
  function Commits(w: World, call: Call): seq<Write> {
    match call
    case CreatePendingBatch(id, path, owner) => [AddBatch(id, Batch(path, owner, Pending))]
    case SavePrediction(row) => if row.batch in w.batches then [AddPrediction(row)] else []
    case SaveAndComplete(row) =>
      if row.batch in w.batches then [AddPrediction(row), UpdateStatus(row.batch, Done)] else []
    case RelabelPrediction(pid, u) => if pid < |w.predictions| && Storable(u) then [UpdatePrediction(pid, u)] else []
    case UpdateBatch(batch, status) =>
      if batch in w.batches && status.Set? then [UpdateStatus(batch, status.value)] else []
  }

  /** The deletions by pattern that follow. */
  function Patterns(w: World, call: Call): seq<string> {
    match call
    case CreatePendingBatch(_, _, owner) => OwnerPatterns(owner)
    case SavePrediction(row) => if row.batch in w.batches then PredictionPatterns(row.batch) else []
    case SaveAndComplete(row) => if row.batch in w.batches then PredictionPatterns(row.batch) else []
    case RelabelPrediction(pid, u) =>
      if pid < |w.predictions| && Storable(u) then PredictionPatterns(w.predictions[pid].batch) else []
    case UpdateBatch(batch, status) =>
      if batch in w.batches && !status.Null?
      then [BatchPattern(batch), BATCH_LIST_PATTERN] + OwnerPatterns(w.batches[batch].owner) else []
  }

  function PredictionPatterns(batch: Uuid): seq<string> {
    [BatchPattern(batch), BATCH_LIST_PATTERN, RECENT_PATTERN]
  }

  function OwnerPatterns(owner: Option<Uuid>): seq<string> {
    if owner.Some? then [UserPattern(owner.value)] else []
  }

  /** The keys left after deleting by each pattern in turn. */
  function Remaining(keys: set<string>, patterns: seq<string>): set<string> {
    if patterns == [] then keys else Evict(Remaining(keys, patterns[..|patterns| - 1]), patterns[|patterns| - 1])
  }

  /**
   * A completed call left the tables and the cache's keys as its commits and deletions say; audit rows are not cached.
   */
  predicate Performed(w: World, keys: set<string>, call: Call, w': World, keys': set<string>) {
    var after := Commit(w, Commits(w, call));
    w'.batches == after.batches && w'.predictions == after.predictions && keys' == Remaining(keys, Patterns(w, call))
  }

  // ---------------------------------------------------------------- runs

  datatype Entry = Entry(query: Query, response: Response, stored: nat)

  /** A read that has run its query and not yet stored the answer. */
  datatype Asked = Asked(query: Query, variant: nat, response: Response)

  /**
   * `cut`: when a service call last died on the way. `slip`: when a read last stored an answer that had been overtaken
   * since it ran its query.
   */
  datatype State = State(
    w: World, cache: map<string, Entry>, now: nat, underWay: seq<Asked>, cut: Option<nat>, slip: Option<nat>)

  datatype Step =
    | Read(q: Query, variant: nat)                   // query and store at once
    | Ask(q: Query, variant: nat)                    // query now
    | Store(i: nat)                                  // and store later, whatever happened in between
    | Serve(call: Call)
    | Die(call: Call, commits: nat, passes: nat)     // after so many commits and so many deletions by pattern
    | Tick

  predicate Valid(s: State, t: Step) {
    match t
    case Store(i) => i < |s.underWay|
    case Serve(call) => call.CreatePendingBatch? ==> call.id !in s.w.batches
    case Die(call, commits, passes) =>
      && (call.CreatePendingBatch? ==> call.id !in s.w.batches)
      && commits <= |Commits(s.w, call)| && passes <= |Patterns(s.w, call)|
    case _ => true
  }

  predicate Served(s: State, key: string) {
    key in s.cache && s.now < s.cache[key].stored + EXPIRE
  }

  /** What a cached read answers. */
  function Answered(keyOf: KeyOf, s: State, q: Query, variant: nat): Option<Response> {
    var key := keyOf(q, variant);
    if Served(s, key) then Some(s.cache[key].response) else Uncached(s.w, q)
  }

  function Drop(cache: map<string, Entry>, patterns: seq<string>): map<string, Entry> {
    map k | k in Remaining(cache.Keys, patterns) && k in cache :: cache[k]
  }

  function Next(keyOf: KeyOf, s: State, t: Step): State
    requires Valid(s, t)
  {
    match t
    case Read(q, variant) =>
      var key := keyOf(q, variant);
      if Served(s, key) then s
      else
        (match Uncached(s.w, q)
         case None => s
         case Some(response) => s.(cache := s.cache[key := Entry(q, response, s.now)]))
    case Ask(q, variant) =>
      if Served(s, keyOf(q, variant)) then s
      else
        (match Uncached(s.w, q)
         case None => s
         case Some(response) => s.(underWay := s.underWay + [Asked(q, variant, response)]))
    case Store(i) =>
      var read := s.underWay[i];
      s.(cache := s.cache[keyOf(read.query, read.variant) := Entry(read.query, read.response, s.now)],
         underWay := s.underWay[..i] + s.underWay[i + 1..],
         slip := if Uncached(s.w, read.query) == Some(read.response) then s.slip else Some(s.now))
    case Serve(call) =>
      s.(w := Commit(s.w, Commits(s.w, call)), cache := Drop(s.cache, Patterns(s.w, call)))
    case Die(call, commits, passes) =>
      s.(w := Commit(s.w, Commits(s.w, call)[..commits]), cache := Drop(s.cache, Patterns(s.w, call)[..passes]),
        cut := Some(s.now))
    case Tick => s.(now := s.now + 1)
  }

  predicate Legal(keyOf: KeyOf, s: State, steps: seq<Step>)
    decreases |steps|
  {
    steps == [] || (Valid(s, steps[0]) && Legal(keyOf, Next(keyOf, s, steps[0]), steps[1..]))
  }

  function Exec(keyOf: KeyOf, s: State, steps: seq<Step>): State
    requires Legal(keyOf, s, steps)
    decreases |steps|
  {
    if steps == [] then s else Exec(keyOf, Next(keyOf, s, steps[0]), steps[1..])
  }

  // ---------------------------------------------------------------- what the key names have to allow

  /** Different queries never share a key. */
  ghost predicate Separate(keyOf: KeyOf) {
    forall q1, v1, q2, v2 :: keyOf(q1, v1) == keyOf(q2, v2) ==> q1 == q2
  }

  /** The deletions that follow a change reach every key whose answer it can change. */
  ghost predicate Evictable(keyOf: KeyOf) {
    && (forall skip, limit, v :: var key := keyOf(Recent(skip, limit), v);
          Match(RECENT_PATTERN, key) || Match(BATCH_LIST_PATTERN, key))
    && (forall b, v :: Match(BATCH_LIST_PATTERN, keyOf(BatchById(b), v)))
  }

  /** Keys that spell out the request path. */
  ghost predicate EmbedPath(keyOf: KeyOf) {
    && (forall skip, limit, v :: Contains(keyOf(Recent(skip, limit), v), "/predictions/recent"))
    && (forall b: Uuid, v :: Contains(keyOf(BatchById(b), v), "/batches/" + b))
  }

  lemma PathKeysEvictable(keyOf: KeyOf)
    requires EmbedPath(keyOf)
    ensures Evictable(keyOf)
  {
    forall skip, limit, v ensures Match(RECENT_PATTERN, keyOf(Recent(skip, limit), v)) {
      PatternMeaning(ALL_ZERO, keyOf(Recent(skip, limit), v));
    }
    forall b, v ensures Match(BATCH_LIST_PATTERN, keyOf(BatchById(b), v)) {
      PatternMeaning(b, keyOf(BatchById(b), v));
      BatchPatternCovered(b, keyOf(BatchById(b), v));
    }
  }

  const ALL_ZERO: Uuid := "00000000-0000-0000-0000-000000000000"

  lemma {:induction false} RemainingMeans(keys: set<string>, patterns: seq<string>, key: string)
    ensures key in Remaining(keys, patterns) <==>
      key in keys && forall i | 0 <= i < |patterns| :: !Match(patterns[i], key)
  {
    if patterns != [] {
      RemainingMeans(keys, patterns[..|patterns| - 1], key);
    }
  }

  // ---------------------------------------------------------------- invariants

  /** An entry was made by its own key's query, in the past, for something that exists. */
  ghost predicate Sound(keyOf: KeyOf, s: State) {
    forall key | key in s.cache ::
      && (exists v :: keyOf(s.cache[key].query, v) == key)
      && s.cache[key].stored <= s.now
      && Uncached(s.w, s.cache[key].query).Some?
  }

  predicate Agrees(s: State, key: string)
    requires key in s.cache
  {
    Uncached(s.w, s.cache[key].query) == Some(s.cache[key].response)
  }

  predicate AllAgree(s: State) {
    forall key | key in s.cache :: Agrees(s, key)
  }

  /** The time is no later than the event's. */
  predicate UpTo(stored: nat, event: Option<nat>) {
    event.Some? && stored <= event.value
  }

  /** Only entries made before a call died, or before an overtaken read stored its answer, can disagree. */
  predicate Excused(s: State) {
    forall key | key in s.cache && !Agrees(s, key) ::
      UpTo(s.cache[key].stored, s.cut) || UpTo(s.cache[key].stored, s.slip)
  }

  /** A read under way asked for something that exists. */
  predicate ReadsSound(s: State) {
    forall i | 0 <= i < |s.underWay| :: Uncached(s.w, s.underWay[i].query).Some?
  }

  ghost predicate Inv(keyOf: KeyOf, s: State) {
    Sound(keyOf, s) && Excused(s) && ReadsSound(s)
  }

  // ---------------------------------------------------------------- what a call can change

  lemma CommitsEffect(w: World, call: Call, n: nat, w': World)
    requires n <= |Commits(w, call)| && w' == Commit(w, Commits(w, call)[..n])
    requires call.CreatePendingBatch? ==> call.id !in w.batches
    ensures w.batches.Keys <= w'.batches.Keys
    ensures call.CreatePendingBatch? ==>
      w'.predictions == w.predictions && forall b | b in w.batches :: w'.batches[b] == w.batches[b]
    ensures call.UpdateBatch? ==> w'.predictions == w.predictions
    ensures Patterns(w, call) == [] && !call.CreatePendingBatch? ==> w' == w
  {
    var xs := Commits(w, call);
    if n > 0 {
      FirstCommit(w, xs, n, w');
      if n == 1 {
        FirstWrite(w, call, w');
      } else {
        FirstWrite(w, call, ApplyWrite(w, xs[0]));
      }
    }
  }

  /** One or two writes, applied in turn. */
  lemma FirstCommit(w: World, xs: seq<Write>, n: nat, w': World)
    requires 0 < n <= |xs| <= 2 && w' == Commit(w, xs[..n])
    ensures w' == if n == 1 then ApplyWrite(w, xs[0]) else ApplyWrite(ApplyWrite(w, xs[0]), xs[1])
  {
    if n == 1 {
      assert xs[..1] == [xs[0]];
      CommitOne(w, xs[0]);
    } else {
      assert xs[..2] == [xs[0], xs[1]];
      CommitTwo(w, xs[0], xs[1]);
    }
  }

  lemma FirstWrite(w: World, call: Call, w': World)
    requires Commits(w, call) != [] && w' == ApplyWrite(w, Commits(w, call)[0])
    ensures w.batches.Keys <= w'.batches.Keys
    ensures call.CreatePendingBatch? && call.id !in w.batches ==>
      w'.predictions == w.predictions && forall b | b in w.batches :: w'.batches[b] == w.batches[b]
    ensures call.UpdateBatch? ==> w'.predictions == w.predictions
  {
  }

  /** If a call changes the answer to a cached query, a deletion that follows is aimed at that query's keys. */
  lemma ChangeIsAimed(w: World, call: Call, n: nat, w': World, q: Query)
    requires n <= |Commits(w, call)| && w' == Commit(w, Commits(w, call)[..n])
    requires call.CreatePendingBatch? ==> call.id !in w.batches
    requires Uncached(w, q).Some?
    ensures Uncached(w', q).Some?
    ensures Uncached(w', q) != Uncached(w, q) ==> BATCH_LIST_PATTERN in Patterns(w, call)
    ensures Uncached(w', q) != Uncached(w, q) && q.Recent? ==> RECENT_PATTERN in Patterns(w, call)
  {
    CommitsEffect(w, call, n, w');
    assert Uncached(w', q).Some?;
    AimedPatterns(w, call);
    if call.CreatePendingBatch? || (call.UpdateBatch? && q.Recent?) {
      SameTables(w, w', q);
    }
  }

  lemma SameTables(w: World, w': World, q: Query)
    requires w'.predictions == w.predictions && Uncached(w, q).Some?
    requires q.BatchById? ==> q.batch in w'.batches && w'.batches[q.batch] == w.batches[q.batch]
    ensures Uncached(w', q) == Uncached(w, q)
  {
  }

  lemma AimedPatterns(w: World, call: Call)
    ensures Patterns(w, call) != [] && !call.CreatePendingBatch? ==> BATCH_LIST_PATTERN in Patterns(w, call)
    ensures Patterns(w, call) != [] && !call.CreatePendingBatch? && !call.UpdateBatch? ==>
      RECENT_PATTERN in Patterns(w, call)
  {
    var patterns := Patterns(w, call);
    if patterns != [] && !call.CreatePendingBatch? {
      assert patterns[1] == BATCH_LIST_PATTERN;
      if !call.UpdateBatch? {
        assert patterns[2] == RECENT_PATTERN;
      }
    }
  }

  lemma DropMeans(cache: map<string, Entry>, patterns: seq<string>, key: string)
    ensures key in Drop(cache, patterns) <==> key in cache && forall p | p in patterns :: !Match(p, key)
    ensures key in Drop(cache, patterns) ==> Drop(cache, patterns)[key] == cache[key]
  {
    RemainingMeans(cache.Keys, patterns, key);
    forall p | p in patterns && key in Drop(cache, patterns) ensures !Match(p, key) {
      var i :| 0 <= i < |patterns| && patterns[i] == p;
    }
  }

  // ---------------------------------------------------------------- every step keeps the invariants

  lemma EntryKept(keyOf: KeyOf, s: State, key: string)
    requires Sound(keyOf, s) && key in s.cache
    ensures (exists v :: keyOf(s.cache[key].query, v) == key) && s.cache[key].stored <= s.now
    ensures Uncached(s.w, s.cache[key].query).Some?
  {
  }

  /** A whole call: what it leaves in the cache agrees as it did before. */
  lemma ServedEntry(keyOf: KeyOf, s: State, call: Call, s': State, key: string)
    requires Evictable(keyOf) && Sound(keyOf, s) && Valid(s, Serve(call)) && s' == Next(keyOf, s, Serve(call))
    requires key in s'.cache
    ensures key in s.cache && s'.cache[key] == s.cache[key]
    ensures Uncached(s'.w, s.cache[key].query) == Uncached(s.w, s.cache[key].query)
  {
    DropMeans(s.cache, Patterns(s.w, call), key);
    EntryKept(keyOf, s, key);
    var q := s.cache[key].query;
    var v :| keyOf(q, v) == key;
    var xs := Commits(s.w, call);
    assert xs[..|xs|] == xs;
    ChangeIsAimed(s.w, call, |xs|, s'.w, q);
    match q
    case Recent(skip, limit) => assert Match(RECENT_PATTERN, key) || Match(BATCH_LIST_PATTERN, key);
    case BatchById(b) => assert Match(BATCH_LIST_PATTERN, key);
  }

  lemma ServeKeeps(keyOf: KeyOf, s: State, call: Call, s': State)
    requires Evictable(keyOf) && Inv(keyOf, s) && Valid(s, Serve(call)) && s' == Next(keyOf, s, Serve(call))
    ensures Inv(keyOf, s') && (AllAgree(s) ==> AllAgree(s'))
  {
    forall key | key in s'.cache
      ensures key in s.cache && s'.cache[key] == s.cache[key]
      ensures Uncached(s'.w, s.cache[key].query) == Uncached(s.w, s.cache[key].query)
    {
      ServedEntry(keyOf, s, call, s', key);
    }
    var xs := Commits(s.w, call);
    assert xs[..|xs|] == xs;
    ReadsStaySound(s, call, |xs|, s');
  }

  lemma ReadsStaySound(s: State, call: Call, n: nat, s': State)
    requires ReadsSound(s) && n <= |Commits(s.w, call)| && s'.w == Commit(s.w, Commits(s.w, call)[..n])
    requires s'.underWay == s.underWay && (call.CreatePendingBatch? ==> call.id !in s.w.batches)
    ensures ReadsSound(s')
  {
    forall i | 0 <= i < |s.underWay| ensures Uncached(s'.w, s.underWay[i].query).Some? {
      ChangeIsAimed(s.w, call, n, s'.w, s.underWay[i].query);
    }
  }

  lemma DieKeeps(keyOf: KeyOf, s: State, t: Step, s': State)
    requires Inv(keyOf, s) && t.Die? && Valid(s, t) && s' == Next(keyOf, s, t)
    ensures Inv(keyOf, s')
  {
    forall key | key in s'.cache
      ensures key in s.cache && s'.cache[key] == s.cache[key] && Uncached(s'.w, s.cache[key].query).Some?
    {
      DropMeans(s.cache, Patterns(s.w, t.call)[..t.passes], key);
      ChangeIsAimed(s.w, t.call, t.commits, s'.w, s.cache[key].query);
    }
    ReadsStaySound(s, t.call, t.commits, s');
  }

  lemma ReadKeeps(keyOf: KeyOf, s: State, q: Query, variant: nat, s': State)
    requires Inv(keyOf, s) && s' == Next(keyOf, s, Read(q, variant))
    ensures Inv(keyOf, s') && (AllAgree(s) ==> AllAgree(s'))
  {
  }

  /** A stored answer agrees, or it is the slip. */
  lemma StoreKeeps(keyOf: KeyOf, s: State, i: nat, s': State)
    requires Inv(keyOf, s) && i < |s.underWay| && s' == Next(keyOf, s, Store(i))
    ensures Inv(keyOf, s')
  {
    var key := keyOf(s.underWay[i].query, s.underWay[i].variant);
    assert Uncached(s.w, s.underWay[i].query).Some?;
    forall other | other in s'.cache && !Agrees(s', other)
      ensures UpTo(s'.cache[other].stored, s'.cut) || UpTo(s'.cache[other].stored, s'.slip)
    {
      if other != key {
        assert !Agrees(s, other);
        EntryKept(keyOf, s, other);
      }
    }
  }

  lemma StepKeeps(keyOf: KeyOf, s: State, t: Step, s': State)
    requires Evictable(keyOf) && Inv(keyOf, s) && Valid(s, t) && s' == Next(keyOf, s, t)
    ensures Inv(keyOf, s') && (AllAgree(s) && Whole(t) ==> AllAgree(s'))
  {
    match t
    case Read(q, variant) => ReadKeeps(keyOf, s, q, variant, s');
    case Ask(q, variant) =>
    case Store(i) => StoreKeeps(keyOf, s, i, s');
    case Serve(call) => ServeKeeps(keyOf, s, call, s');
    case Die(_, _, _) => DieKeeps(keyOf, s, t, s');
    case Tick =>
  }

  /** No call dies on the way, and no read takes its time. */
  predicate Whole(t: Step) {
    !t.Die? && !t.Store?
  }

  predicate AllWhole(steps: seq<Step>) {
    forall i | 0 <= i < |steps| :: Whole(steps[i])
  }

  lemma {:induction false} RunKeeps(keyOf: KeyOf, s: State, steps: seq<Step>)
    requires Evictable(keyOf) && Inv(keyOf, s) && Legal(keyOf, s, steps)
    ensures Inv(keyOf, Exec(keyOf, s, steps))
    ensures AllAgree(s) && AllWhole(steps) ==> AllAgree(Exec(keyOf, s, steps))
    decreases |steps|
  {
    if steps != [] {
      var s' := Next(keyOf, s, steps[0]);
      StepKeeps(keyOf, s, steps[0], s');
      RunKeeps(keyOf, s', steps[1..]);
    }
  }

  // ---------------------------------------------------------------- the theorems

  /** Any tables, nothing cached yet. */
  function Start(w: World): State {
    State(w, map[], 0, [], None, None)
  }

  ghost predicate ServedRight(keyOf: KeyOf, s: State) {
    forall q, v :: Answered(keyOf, s, q, v) == Uncached(s.w, q)
  }

  lemma AgreeingServesRight(keyOf: KeyOf, s: State)
    requires Separate(keyOf) && Sound(keyOf, s) && AllAgree(s)
    ensures ServedRight(keyOf, s)
  {
  }

  /** While calls complete and reads are one step, every cached read answers what the query itself would answer now. */
  lemma CacheServesRight(keyOf: KeyOf, w: World, steps: seq<Step>)
    requires Separate(keyOf) && Evictable(keyOf) && Legal(keyOf, Start(w), steps)
    requires AllWhole(steps)
    ensures ServedRight(keyOf, Exec(keyOf, Start(w), steps))
    ensures var s := Exec(keyOf, Start(w), steps);
      forall skip, limit, v :: Answered(keyOf, s, Recent(skip, limit), v) ==
        Some(RecentPage(Window(NewestFirst(s.w.predictions), skip, limit), |s.w.predictions|, skip, limit))
  {
    RunKeeps(keyOf, Start(w), steps);
    var s := Exec(keyOf, Start(w), steps);
    AgreeingServesRight(keyOf, s);
    forall skip, limit, v
      ensures Answered(keyOf, s, Recent(skip, limit), v) ==
        Some(RecentPage(Window(NewestFirst(s.w.predictions), skip, limit), |s.w.predictions|, skip, limit))
    {
      RecentIsNewestFirst(s.w, skip, limit);
    }
  }

  /**
   * Whatever dies and however long reads take: a read can only be wrong within a minute of the last call that died, or
   * of the last read that stored an answer overtaken while it was under way.
   */
  lemma WrongForAMinute(keyOf: KeyOf, w: World, steps: seq<Step>, q: Query, variant: nat)
    requires Separate(keyOf) && Evictable(keyOf) && Legal(keyOf, Start(w), steps)
    ensures var s := Exec(keyOf, Start(w), steps);
      Answered(keyOf, s, q, variant) != Uncached(s.w, q) ==>
        || (s.cut.Some? && s.now < s.cut.value + 60)
        || (s.slip.Some? && s.now < s.slip.value + 60)
  {
    RunKeeps(keyOf, Start(w), steps);
    var s := Exec(keyOf, Start(w), steps);
    var key := keyOf(q, variant);
    if Served(s, key) {
      EntryKept(keyOf, s, key);
      var v :| keyOf(s.cache[key].query, v) == key;
      assert s.cache[key].query == q;
    }
  }

  // ---------------------------------------------------------------- exactly which key names work

  /** While calls complete and reads are one step, no read is ever wrong. */
  ghost predicate AlwaysRight(keyOf: KeyOf) {
    forall w, steps :: Legal(keyOf, Start(w), steps) && AllWhole(steps) ==>
      ServedRight(keyOf, Exec(keyOf, Start(w), steps))
  }

  /** Tables with one pending batch and nothing else. */
  function OneBatch(b: Uuid): World {
    World(map[], map[], map[b := Batch("", None, Pending)], [], [], map[], [], 0)
  }

  lemma TwoSteps(keyOf: KeyOf, s: State, t1: Step, t2: Step, s1: State)
    requires Valid(s, t1) && s1 == Next(keyOf, s, t1) && Valid(s1, t2)
    ensures Legal(keyOf, s, [t1, t2]) && Exec(keyOf, s, [t1, t2]) == Next(keyOf, s1, t2)
  {
    var steps := [t1, t2];
    assert steps[1..] == [t2] && [t2][1..] == [];
    var s2 := Next(keyOf, s1, t2);
    assert Legal(keyOf, s2, []) && Exec(keyOf, s2, []) == s2;
    assert Legal(keyOf, s1, [t2]) && Exec(keyOf, s1, [t2]) == s2;
  }

  /** Read, then change the answer by a call whose deletions miss the key: the old answer is served. */
  lemma MissedKeyServesStale(keyOf: KeyOf, b: Uuid, q: Query, v: nat, call: Call)
    requires Uncached(OneBatch(b), q).Some? && !call.CreatePendingBatch?
    requires forall p | p in Patterns(OneBatch(b), call) :: !Match(p, keyOf(q, v))
    requires Uncached(Commit(OneBatch(b), Commits(OneBatch(b), call)), q) != Uncached(OneBatch(b), q)
    ensures !AlwaysRight(keyOf)
  {
    var s0 := Start(OneBatch(b));
    var s1 := Next(keyOf, s0, Read(q, v));
    var key := keyOf(q, v);
    var s2 := Next(keyOf, s1, Serve(call));
    TwoSteps(keyOf, s0, Read(q, v), Serve(call), s1);
    DropMeans(s1.cache, Patterns(s1.w, call), key);
    assert Served(s2, key);
    assert Answered(keyOf, s2, q, v) != Uncached(s2.w, q);
    assert AllWhole([Read(q, v), Serve(call)]);
    assert !ServedRight(keyOf, Exec(keyOf, Start(OneBatch(b)), [Read(q, v), Serve(call)]));
  }

  lemma MissedRecentKey(keyOf: KeyOf, skip: nat, limit: nat, v: nat)
    requires !Match(RECENT_PATTERN, keyOf(Recent(skip, limit), v))
    requires !Match(BATCH_LIST_PATTERN, keyOf(Recent(skip, limit), v))
    ensures !AlwaysRight(keyOf)
  {
    var b := ALL_ZERO;
    var key := keyOf(Recent(skip, limit), v);
    var call := SavePrediction(Prediction(b, "", Letter, 0.0, None));
    if Match(BatchPattern(b), key) {
      BatchPatternCovered(b, key);
    }
    CommitOne(OneBatch(b), AddPrediction(call.row));
    MissedKeyServesStale(keyOf, b, Recent(skip, limit), v, call);
  }

  lemma MissedBatchKey(keyOf: KeyOf, b: Uuid, v: nat)
    requires !Match(BATCH_LIST_PATTERN, keyOf(BatchById(b), v))
    ensures !AlwaysRight(keyOf)
  {
    var key := keyOf(BatchById(b), v);
    var call := UpdateBatch(b, Set(Done));
    if Match(BatchPattern(b), key) {
      BatchPatternCovered(b, key);
    }
    CommitOne(OneBatch(b), UpdateStatus(b, Done));
    MissedKeyServesStale(keyOf, b, BatchById(b), v, call);
  }

  /** The cache serves right in every run of completed calls if and only if the deletions reach the keys. */
  lemma RightExactlyWhenEvictable(keyOf: KeyOf)
    requires Separate(keyOf)
    ensures AlwaysRight(keyOf) <==> Evictable(keyOf)
  {
    if Evictable(keyOf) {
      forall w, steps | Legal(keyOf, Start(w), steps) && AllWhole(steps)
        ensures ServedRight(keyOf, Exec(keyOf, Start(w), steps))
      {
        CacheServesRight(keyOf, w, steps);
      }
    } else if skip, limit, v :| !Match(RECENT_PATTERN, keyOf(Recent(skip, limit), v))
                               && !Match(BATCH_LIST_PATTERN, keyOf(Recent(skip, limit), v)) {
      MissedRecentKey(keyOf, skip, limit, v);
    } else {
      var b, v :| !Match(BATCH_LIST_PATTERN, keyOf(BatchById(b), v));
      MissedBatchKey(keyOf, b, v);
    }
  }

  /** Keys in which no path appears, such as digests, are out of reach of every deletion. */
  lemma DigestKeysGoStale(keyOf: KeyOf)
    requires forall q, v :: SlashFree(keyOf(q, v))
    ensures !AlwaysRight(keyOf)
  {
    SlashFreeKeyUnmatched(ALL_ZERO, keyOf(BatchById(ALL_ZERO), 0));
    MissedBatchKey(keyOf, ALL_ZERO, 0);
  }

  // ---------------------------------------------------------------- a slow read

  lemma LegalFirst(keyOf: KeyOf, s: State, t: Step, rest: seq<Step>)
    requires Valid(s, t) && Legal(keyOf, Next(keyOf, s, t), rest)
    ensures Legal(keyOf, s, [t] + rest) && Exec(keyOf, s, [t] + rest) == Exec(keyOf, Next(keyOf, s, t), rest)
  {
    assert ([t] + rest)[0] == t && ([t] + rest)[1..] == rest;
  }

  /** With no call dying, and whatever the keys: a read that is overtaken while under way leaves a wrong answer. */
  lemma SlowReadServesStale(keyOf: KeyOf, v: nat) returns (steps: seq<Step>)
    ensures Legal(keyOf, Start(OneBatch(ALL_ZERO)), steps) && forall i | 0 <= i < |steps| :: !steps[i].Die?
    ensures !ServedRight(keyOf, Exec(keyOf, Start(OneBatch(ALL_ZERO)), steps))
  {
    var q := Recent(0, 1);
    var call := SavePrediction(Prediction(ALL_ZERO, "", Letter, 0.0, None));
    var s0 := Start(OneBatch(ALL_ZERO));
    var s1 := Next(keyOf, s0, Ask(q, v));
    var s2 := Next(keyOf, s1, Serve(call));
    var s3 := Next(keyOf, s2, Store(0));
    CommitOne(OneBatch(ALL_ZERO), AddPrediction(call.row));
    assert Answered(keyOf, s3, q, v) != Uncached(s3.w, q);
    assert Legal(keyOf, s3, []) && Exec(keyOf, s3, []) == s3;
    LegalFirst(keyOf, s2, Store(0), []);
    LegalFirst(keyOf, s1, Serve(call), [Store(0)] + []);
    LegalFirst(keyOf, s0, Ask(q, v), [Serve(call)] + ([Store(0)] + []));
    steps := [Ask(q, v)] + ([Serve(call)] + ([Store(0)] + []));
  }

  // ---------------------------------------------------------------- the service layer's own calls are these calls

  /** To the cached queries, a performed call is a step of the runs above. */
  lemma PerformedIsServed(keyOf: KeyOf, s: State, call: Call, w': World, keys': set<string>)
    requires Valid(s, Serve(call)) && Performed(s.w, s.cache.Keys, call, w', keys')
    ensures var s' := Next(keyOf, s, Serve(call));
      s'.cache.Keys == keys' && forall q :: Uncached(s'.w, q) == Uncached(w', q)
  {
    var s' := Next(keyOf, s, Serve(call));
    forall key ensures key in s'.cache <==> key in keys' {
      DropMeans(s.cache, Patterns(s.w, call), key);
      RemainingMeans(s.cache.Keys, Patterns(s.w, call), key);
    }
  }

  lemma RemainingSnoc(keys: set<string>, patterns: seq<string>, p: string)
    ensures Remaining(keys, patterns + [p]) == Evict(Remaining(keys, patterns), p)
  {
    assert (patterns + [p])[..|patterns|] == patterns;
  }

  /** The passes of a batch invalidation leave what the list pattern alone leaves. */
  lemma RemainingBatch(keys: set<string>, batch: Uuid)
    ensures Remaining(keys, [BatchPattern(batch), BATCH_LIST_PATTERN]) == Evict(keys, BATCH_LIST_PATTERN)
  {
    RemainingSnoc(keys, [], BatchPattern(batch));
    RemainingSnoc(keys, [BatchPattern(batch)], BATCH_LIST_PATTERN);
    assert [] + [BatchPattern(batch)] == [BatchPattern(batch)];
    assert [BatchPattern(batch)] + [BATCH_LIST_PATTERN] == [BatchPattern(batch), BATCH_LIST_PATTERN];
    BatchPassesCollapse(keys, batch);
  }

  lemma RemainingPrediction(keys: set<string>, batch: Uuid)
    ensures Remaining(keys, PredictionPatterns(batch)) == Evict(Evict(keys, BATCH_LIST_PATTERN), RECENT_PATTERN)
  {
    RemainingBatch(keys, batch);
    RemainingSnoc(keys, [BatchPattern(batch), BATCH_LIST_PATTERN], RECENT_PATTERN);
    assert [BatchPattern(batch), BATCH_LIST_PATTERN] + [RECENT_PATTERN] == PredictionPatterns(batch);
  }

  lemma RemainingOwner(keys: set<string>, patterns: seq<string>, owner: Option<Uuid>)
    ensures Remaining(keys, patterns + OwnerPatterns(owner)) ==
      if owner.Some? then Evict(Remaining(keys, patterns), UserPattern(owner.value)) else Remaining(keys, patterns)
  {
    if owner.Some? {
      RemainingSnoc(keys, patterns, UserPattern(owner.value));
    } else {
      assert patterns + [] == patterns;
    }
  }

  lemma SavePerformed(w: World, keys: set<string>, row: Prediction, w': World, keys': set<string>)
    requires row.batch in w.batches && w'.batches == w.batches && w'.predictions == w.predictions + [row]
    requires keys' == Evict(Evict(keys, BATCH_LIST_PATTERN), RECENT_PATTERN)
    ensures Performed(w, keys, SavePrediction(row), w', keys')
  {
    CommitOne(w, AddPrediction(row));
    RemainingPrediction(keys, row.batch);
  }

  lemma CompletePerformed(w: World, keys: set<string>, row: Prediction, w': World, keys': set<string>)
    requires row.batch in w.batches && w'.predictions == w.predictions + [row]
    requires w'.batches == w.batches[row.batch := w.batches[row.batch].(status := Done)]
    requires keys' == Evict(Evict(keys, BATCH_LIST_PATTERN), RECENT_PATTERN)
    ensures Performed(w, keys, SaveAndComplete(row), w', keys')
  {
    CommitTwo(w, AddPrediction(row), UpdateStatus(row.batch, Done));
    RemainingPrediction(keys, row.batch);
  }

  lemma RelabelPerformed(w: World, keys: set<string>, pid: nat, u: PredictionUpdate, w': World, keys': set<string>)
    requires pid < |w.predictions| && Storable(u) && w'.batches == w.batches
    requires w'.predictions == w.predictions[pid := Updated(w.predictions[pid], u)]
    requires keys' == Evict(Evict(keys, BATCH_LIST_PATTERN), RECENT_PATTERN)
    ensures Performed(w, keys, RelabelPrediction(pid, u), w', keys')
  {
    CommitOne(w, UpdatePrediction(pid, u));
    RemainingPrediction(keys, w.predictions[pid].batch);
  }

  /** What an update's deletions leave. */
  function AfterUpdate(keys: set<string>, owner: Option<Uuid>): set<string> {
    var left := Evict(keys, BATCH_LIST_PATTERN);
    if owner.Some? then Evict(left, UserPattern(owner.value)) else left
  }

  lemma UpdatePerformed(w: World, keys: set<string>, batch: Uuid, status: Field<BatchStatus>, w': World,
                        keys': set<string>)
    requires batch in w.batches && !status.Null? && w'.predictions == w.predictions
    requires w'.batches ==
      if status.Set? then w.batches[batch := w.batches[batch].(status := status.value)] else w.batches
    requires keys' == AfterUpdate(keys, w.batches[batch].owner)
    ensures Performed(w, keys, UpdateBatch(batch, status), w', keys')
  {
    if status.Set? {
      CommitOne(w, UpdateStatus(batch, status.value));
    }
    RemainingBatch(keys, batch);
    RemainingOwner(keys, [BatchPattern(batch), BATCH_LIST_PATTERN], w.batches[batch].owner);
  }

  lemma CreatePerformed(w: World, keys: set<string>, id: Uuid, path: string, owner: Option<Uuid>, w': World,
                        keys': set<string>)
    requires w'.predictions == w.predictions && w'.batches == w.batches[id := Batch(path, owner, Pending)]
    requires keys' == if owner.Some? then Evict(keys, UserPattern(owner.value)) else keys
    ensures Performed(w, keys, CreatePendingBatch(id, path, owner), w', keys')
  {
    CommitOne(w, AddBatch(id, Batch(path, owner, Pending)));
    RemainingOwner(keys, [], owner);
    assert [] + OwnerPatterns(owner) == OwnerPatterns(owner);
  }
}
