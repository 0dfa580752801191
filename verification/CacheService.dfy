/**
 * CacheService: the SCAN / DELETE loop over a key set that other clients change while it runs.
 * Redis's side of each round trip is given by a schedule; ScanContract is what Redis promises of it.
 */
module CacheService {
  import opened Keys
  import opened Glob

  /** One SCAN call: what other clients removed and wrote since the previous one, and the page it returns. */
  datatype Tick = Tick(gone: set<string>, written: set<string>, page: seq<string>)

  /** The keys a SCAN call finds. */
  function Found(keys: set<string>, t: Tick): set<string> {
    keys - t.gone + t.written
  }

  /** The keys left after its page has been deleted. */
  function AfterTick(keys: set<string>, t: Tick): set<string> {
    Found(keys, t) - (set k | k in t.page)
  }

  /** The key set after the first `n` rounds of the loop. */
  function KeysAt(keys: set<string>, schedule: seq<Tick>, n: nat): set<string>
    requires n <= |schedule|
  {
    if n == 0 then keys else AfterTick(KeysAt(keys, schedule, n - 1), schedule[n - 1])
  }

  /** The key set the other clients alone would have left. */
  function OthersAt(keys: set<string>, schedule: seq<Tick>, n: nat): set<string>
    requires n <= |schedule|
  {
    if n == 0 then keys else Found(OthersAt(keys, schedule, n - 1), schedule[n - 1])
  }

  /** The key is there at each of the SCAN calls. */
  predicate PresentThroughout(key: string, keys: set<string>, schedule: seq<Tick>) {
    key in keys && forall n | 0 <= n < |schedule| :: key in Found(KeysAt(keys, schedule, n), schedule[n])
  }

  /**
   * SCAN with MATCH: pages hold matching keys only, and a matching key that is there from the start
   * to the end is in some page. Duplicates, empty pages and keys seen only for a while are allowed.
   */
  predicate ScanContract(pattern: string, keys: set<string>, schedule: seq<Tick>) {
    && |schedule| > 0
    && (forall n, k | 0 <= n < |schedule| && k in schedule[n].page :: Match(pattern, k))
    && (forall key | key in keys && Match(pattern, key) && PresentThroughout(key, keys, schedule) ::
          exists n :: 0 <= n < |schedule| && key in schedule[n].page)
  }

  /** No other client writes or removes a key while the loop runs. */
  predicate Quiet(schedule: seq<Tick>) {
    forall n | 0 <= n < |schedule| :: schedule[n].gone == {} && schedule[n].written == {}
  }

  /** The intended effect of deleting by pattern. */
  function Evict(keys: set<string>, pattern: string): set<string> {
    set k | k in keys && !Match(pattern, k)
  }

  // ---------------------------------------------------------------- what the loop achieves

  /** A key nobody writes is, at any later point, still among those found at every earlier SCAN. */
  lemma {:induction false} SurvivorWasFound(key: string, keys: set<string>, schedule: seq<Tick>, n: nat)
    requires n <= |schedule| && key in KeysAt(keys, schedule, n)
    requires forall m | 0 <= m < |schedule| :: key !in schedule[m].written
    ensures key in keys
    ensures forall m | 0 <= m < n :: key in Found(KeysAt(keys, schedule, m), schedule[m]) && key !in schedule[m].page
  {
    if n > 0 {
      SurvivorWasFound(key, keys, schedule, n - 1);
    }
  }

  /** A matching key outlives the loop only if another client wrote it during the call. */
  lemma MatchingKeysDeleted(pattern: string, keys: set<string>, schedule: seq<Tick>, key: string)
    requires ScanContract(pattern, keys, schedule) && Match(pattern, key)
    requires key in KeysAt(keys, schedule, |schedule|)
    ensures exists n :: 0 <= n < |schedule| && key in schedule[n].written
  {
    if forall m | 0 <= m < |schedule| :: key !in schedule[m].written {
      SurvivorWasFound(key, keys, schedule, |schedule|);
      assert PresentThroughout(key, keys, schedule);
      assert false;
    }
  }

  /** To a key that does not match, the loop might as well not have run. */
  lemma {:induction false} OtherKeysUntouched(pattern: string, keys: set<string>, schedule: seq<Tick>, key: string,
                                              n: nat)
    requires forall m, k | 0 <= m < |schedule| && k in schedule[m].page :: Match(pattern, k)
    requires !Match(pattern, key) && n <= |schedule|
    ensures key in KeysAt(keys, schedule, n) <==> key in OthersAt(keys, schedule, n)
  {
    if n > 0 {
      OtherKeysUntouched(pattern, keys, schedule, key, n - 1);
    }
  }

  lemma {:induction false} QuietOthers(keys: set<string>, schedule: seq<Tick>, n: nat)
    requires n <= |schedule| && Quiet(schedule)
    ensures OthersAt(keys, schedule, n) == keys
  {
    if n > 0 {
      QuietOthers(keys, schedule, n - 1);
    }
  }

  /** Left alone, the loop removes exactly the matches, although it deletes what it iterates over. */
  lemma QuietLoopEvicts(pattern: string, keys: set<string>, schedule: seq<Tick>)
    requires ScanContract(pattern, keys, schedule) && Quiet(schedule)
    ensures KeysAt(keys, schedule, |schedule|) == Evict(keys, pattern)
  {
    QuietOthers(keys, schedule, |schedule|);
    forall key ensures key in KeysAt(keys, schedule, |schedule|) <==> key in Evict(keys, pattern) {
      if Match(pattern, key) {
        if key in KeysAt(keys, schedule, |schedule|) {
          MatchingKeysDeleted(pattern, keys, schedule, key);
          assert false;
        }
      } else {
        OtherKeysUntouched(pattern, keys, schedule, key, |schedule|);
      }
    }
  }

  /** The two passes of invalidate_batch leave what the second would leave alone: every batch's entries go. */
  lemma BatchPassesCollapse(keys: set<string>, batch: Uuid)
    ensures Evict(Evict(keys, BatchPattern(batch)), BATCH_LIST_PATTERN) == Evict(keys, BATCH_LIST_PATTERN)
  {
    forall key | key in keys && Match(BatchPattern(batch), key) ensures Match(BATCH_LIST_PATTERN, key) {
      BatchPatternCovered(batch, key);
    }
  }

  // ---------------------------------------------------------------- the service

  /** The cache database as its clients see it. */
  class RedisBackend {
    var keys: set<string>

    constructor (keys: set<string>)
      ensures this.keys == keys
    {
      this.keys := keys;
    }

    /** SCAN; the cursor returned is 0 once the iteration is complete. */
    method Scan(cursor: nat, schedule: seq<Tick>) returns (next: nat, page: seq<string>)
      requires cursor < |schedule|
      modifies this
      ensures keys == Found(old(keys), schedule[cursor]) && page == schedule[cursor].page
      ensures next == if cursor + 1 == |schedule| then 0 else cursor + 1
    {
      keys := Found(keys, schedule[cursor]);
      page := schedule[cursor].page;
      next := if cursor + 1 == |schedule| then 0 else cursor + 1;
    }

    method Delete(page: seq<string>)
      modifies this
      ensures keys == old(keys) - (set k | k in page)
    {
      keys := keys - (set k | k in page);
    }
  }

  /** The pages the scans of one service call will meet, pass by pass. */
  datatype Scans = Scans(byBatch: seq<Tick>, lists: seq<Tick>, recent: seq<Tick>)

  predicate BatchScans(keys: set<string>, batch: Uuid, scans: Scans) {
    && ScanContract(BatchPattern(batch), keys, scans.byBatch)
    && ScanContract(BATCH_LIST_PATTERN, KeysAt(keys, scans.byBatch, |scans.byBatch|), scans.lists)
  }

  function AfterBatchScans(keys: set<string>, scans: Scans): set<string> {
    KeysAt(KeysAt(keys, scans.byBatch, |scans.byBatch|), scans.lists, |scans.lists|)
  }

  predicate AllScans(keys: set<string>, batch: Uuid, scans: Scans) {
    BatchScans(keys, batch, scans) && ScanContract(RECENT_PATTERN, AfterBatchScans(keys, scans), scans.recent)
  }

  predicate QuietScans(scans: Scans) {
    Quiet(scans.byBatch) && Quiet(scans.lists) && Quiet(scans.recent)
  }

  class CacheService {
    /** Null while fastapi-cache is not initialised: the service is then disabled. */
    var backend: RedisBackend?

    constructor (backend: RedisBackend?)
      ensures this.backend == backend
    {
      this.backend := backend;
    }

    method DeleteByPattern(pattern: string, schedule: seq<Tick>)
      requires backend != null ==> ScanContract(pattern, backend.keys, schedule)
      modifies backend
      ensures backend != null ==> backend.keys == KeysAt(old(backend.keys), schedule, |schedule|)
      ensures backend != null && Quiet(schedule) ==> backend.keys == Evict(old(backend.keys), pattern)
    {
      if backend == null {
        return;
      }
      var client: RedisBackend := backend;
      ghost var before := client.keys;
      var cursor := 0;
      ghost var rounds := 0;
      while true
        invariant cursor == rounds < |schedule|
        invariant client.keys == KeysAt(before, schedule, rounds)
        decreases |schedule| - rounds
      {
        var page;
        cursor, page := client.Scan(cursor, schedule);
        if |page| > 0 {
          client.Delete(page);
        }
        rounds := rounds + 1;
        assert client.keys == AfterTick(KeysAt(before, schedule, rounds - 1), schedule[rounds - 1]);
        if cursor == 0 {
          break;
        }
      }
      if Quiet(schedule) {
        QuietLoopEvicts(pattern, before, schedule);
      }
    }

    method InvalidateBatch(batch: Uuid, scans: Scans)
      requires backend != null ==> BatchScans(backend.keys, batch, scans)
      modifies backend
      ensures backend != null ==> backend.keys == AfterBatchScans(old(backend.keys), scans)
      ensures backend != null && Quiet(scans.byBatch) && Quiet(scans.lists) ==>
        backend.keys == Evict(old(backend.keys), BATCH_LIST_PATTERN)
    {
      ghost var before := if backend != null then backend.keys else {};
      DeleteByPattern(BatchPattern(batch), scans.byBatch);
      DeleteByPattern(BATCH_LIST_PATTERN, scans.lists);
      BatchPassesCollapse(before, batch);
    }

    method InvalidateRecentPredictions(schedule: seq<Tick>)
      requires backend != null ==> ScanContract(RECENT_PATTERN, backend.keys, schedule)
      modifies backend
      ensures backend != null ==> backend.keys == KeysAt(old(backend.keys), schedule, |schedule|)
      ensures backend != null && Quiet(schedule) ==> backend.keys == Evict(old(backend.keys), RECENT_PATTERN)
    {
      DeleteByPattern(RECENT_PATTERN, schedule);
    }

    method InvalidateUser(user: Uuid, schedule: seq<Tick>)
      requires backend != null ==> ScanContract(UserPattern(user), backend.keys, schedule)
      modifies backend
      ensures backend != null ==> backend.keys == KeysAt(old(backend.keys), schedule, |schedule|)
      ensures backend != null && Quiet(schedule) ==> backend.keys == Evict(old(backend.keys), UserPattern(user))
    {
      DeleteByPattern(UserPattern(user), schedule);
    }
  }
}
