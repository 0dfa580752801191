/** What the two cached queries answer as rows are added, and which cache entries each call drops. */
module CachedQueries {
  import opened Prelude
  import opened Keys
  import opened World
  import opened Glob
  import opened CacheService
  import opened CacheAgreement
  import P = Pagination

  /** The predictions that GET /predictions/recent lists. */
  function Items(w: World, skip: nat, limit: nat): seq<Prediction> {
    Uncached(w, Recent(skip, limit)).value.items
  }

  lemma ItemsAreWindow(w: World, skip: nat, limit: nat)
    ensures Items(w, skip, limit) == Window(NewestFirst(w.predictions), skip, limit)
  {
    RecentIsNewestFirst(w, skip, limit);
  }

  /** A prediction just added heads the recent list; behind it comes the list as it was. */
  lemma AddedComesFirst(w: World, row: Prediction, k: nat)
    ensures Items(Commit(w, [AddPrediction(row)]), 0, k + 1) == [row] + Items(w, 0, k)
    ensures Uncached(Commit(w, [AddPrediction(row)]), Recent(0, k + 1)).value.total == |w.predictions| + 1
  {
    CommitOne(w, AddPrediction(row));
    assert (w.predictions + [row])[..|w.predictions|] == w.predictions;
    ItemsAreWindow(Commit(w, [AddPrediction(row)]), 0, k + 1);
    ItemsAreWindow(w, 0, k);
    WindowInFront(NewestFirst(w.predictions), row, k);
  }

  lemma WindowInFront(list: seq<Prediction>, row: Prediction, k: nat)
    ensures Window([row] + list, 0, k + 1) == [row] + Window(list, 0, k)
  {
  }

  /** A skip leaves out that many rows at the front. */
  lemma SkipDropsTheFront(w: World, skip: nat, limit: nat)
    ensures Items(w, skip, limit) ==
      var all := Items(w, 0, skip + limit); if |all| <= skip then [] else all[skip..]
  {
    ItemsAreWindow(w, skip, limit);
    ItemsAreWindow(w, 0, skip + limit);
  }

  /** The table as the database orders it: insertion time is the place in insertion order. */
  function Rows(n: nat): set<P.Row> {
    set i | 0 <= i < n :: P.Row(i, i)
  }

  function Descending(n: nat): (o: seq<P.Row>)
    ensures |o| == n && forall i | 0 <= i < n :: o[i] == P.Row(n - 1 - i, n - 1 - i)
  {
    seq(n, i requires 0 <= i < n => P.Row(n - 1 - i, n - 1 - i))
  }

  /** The recent list is a page of the predictions in the sense of the paging theorems. */
  lemma RecentIsPage(w: World, skip: nat, limit: nat) returns (page: seq<P.Row>)
    ensures P.IsPage(Rows(|w.predictions|), skip, limit, page) && |page| == |Items(w, skip, limit)|
    ensures forall i | 0 <= i < |page| ::
      page[i].id < |w.predictions| && Items(w, skip, limit)[i] == w.predictions[page[i].id]
  {
    var n := |w.predictions|;
    DescendingOrder(n);
    page := P.Slice(Descending(n), skip, limit);
    NewestFirstAt(w.predictions);
    ItemsAreWindow(w, skip, limit);
    SameWindow(w.predictions, NewestFirst(w.predictions), skip, limit);
  }

  lemma SameWindow(rows: seq<Prediction>, list: seq<Prediction>, skip: nat, limit: nat)
    requires |list| == |rows| && forall i | 0 <= i < |rows| :: list[i] == rows[|rows| - 1 - i]
    ensures var page, items := P.Slice(Descending(|rows|), skip, limit), Window(list, skip, limit);
      |page| == |items| && forall i | 0 <= i < |page| :: page[i].id < |rows| && items[i] == rows[page[i].id]
  {
  }

  lemma DescendingOrder(n: nat)
    ensures P.Ordering(Rows(n), Descending(n))
  {
    var o := Descending(n);
    forall r | r in Rows(n) ensures r in o {
      assert o[n - 1 - r.id] == r;
    }
    assert P.Elements(o) == Rows(n);
    P.CountOf(o);
  }

  /** The batch view counts the batch's own predictions, one by one as they come. */
  lemma AddedIsCounted(w: World, row: Prediction, batch: Uuid)
    requires batch in w.batches
    ensures var before := Uncached(w, BatchById(batch)).value;
      Uncached(Commit(w, [AddPrediction(row)]), BatchById(batch)) ==
        Some(BatchView(w.batches[batch], before.documentCount + if row.batch == batch then 1 else 0))
    ensures w.predictions == [] ==> Uncached(w, BatchById(batch)) == Some(BatchView(w.batches[batch], 0))
  {
    CommitOne(w, AddPrediction(row));
    CountAdded(w.predictions, row, batch);
    assert w.predictions == [] ==> PredictionsOf(w.predictions, batch) == {};
  }

  lemma CountAdded(rows: seq<Prediction>, row: Prediction, batch: Uuid)
    ensures |PredictionsOf(rows + [row], batch)| == |PredictionsOf(rows, batch)| + if row.batch == batch then 1 else 0
  {
    var before, after := PredictionsOf(rows, batch), PredictionsOf(rows + [row], batch);
    forall p | 0 <= p < |rows| ensures (rows + [row])[p] == rows[p] {}
    if row.batch == batch {
      assert after == before + {|rows|};
    } else {
      assert after == before;
    }
  }

  /** Left alone, an answer just computed is served for sixty seconds, and from then on the query is asked again. */
  lemma ServedForAMinute(keyOf: KeyOf, s: State, q: Query, v: nat, later: State, seconds: nat)
    requires !Served(s, keyOf(q, v)) && Uncached(s.w, q).Some?
    requires later.cache == Next(keyOf, s, Read(q, v)).cache && later.now == s.now + seconds
    ensures Answered(keyOf, later, q, v) == if seconds < 60 then Uncached(s.w, q) else Uncached(later.w, q)
  {
  }

  /** The keys that a completed call is meant to drop, by the texts that occur in them. */
  predicate Dropped(w: World, call: Call, key: string) {
    match call
    case CreatePendingBatch(_, _, owner) => owner.Some? && Contains(key, "user:" + owner.value)
    case SavePrediction(row) =>
      row.batch in w.batches && (ContainsBefore(key, "/batches") || Contains(key, "/predictions/recent"))
    case SaveAndComplete(row) =>
      row.batch in w.batches && (ContainsBefore(key, "/batches") || Contains(key, "/predictions/recent"))
    case RelabelPrediction(pid, u) =>
      && pid < |w.predictions| && !u.docLabel.Null?
      && (ContainsBefore(key, "/batches") || Contains(key, "/predictions/recent"))
    case UpdateBatch(batch, status) =>
      && batch in w.batches && !status.Null?
      && (ContainsBefore(key, "/batches")
          || (w.batches[batch].owner.Some? && Contains(key, "user:" + w.batches[batch].owner.value)))
  }

  /** A completed call leaves exactly the other keys. */
  lemma CallDrops(w: World, keys: set<string>, call: Call, w': World, keys': set<string>, key: string)
    requires Performed(w, keys, call, w', keys')
    ensures key in keys' <==> key in keys && !Dropped(w, call, key)
  {
    RemainingMeans(keys, Patterns(w, call), key);
    match call
    case CreatePendingBatch(_, _, owner) => OwnerDrops(owner, key);
    case SavePrediction(row) => PredictionDrops(row.batch, key);
    case SaveAndComplete(row) => PredictionDrops(row.batch, key);
    case RelabelPrediction(pid, u) =>
      if pid < |w.predictions| {
        PredictionDrops(w.predictions[pid].batch, key);
      }
    case UpdateBatch(batch, status) =>
      if batch in w.batches && !status.Null? {
        UpdateDrops(batch, w.batches[batch].owner, key);
      }
  }

  predicate Hit(patterns: seq<string>, key: string) {
    exists i :: 0 <= i < |patterns| && Match(patterns[i], key)
  }

  lemma HitTogether(xs: seq<string>, ys: seq<string>, key: string)
    ensures Hit(xs + ys, key) <==> Hit(xs, key) || Hit(ys, key)
  {
    if i :| 0 <= i < |xs| && Match(xs[i], key) {
      assert (xs + ys)[i] == xs[i];
    }
    if i :| 0 <= i < |ys| && Match(ys[i], key) {
      assert (xs + ys)[|xs| + i] == ys[i];
    }
  }

  lemma HitBy(pattern: string, key: string)
    ensures Hit([pattern], key) <==> Match(pattern, key)
  {
    assert [pattern][0] == pattern;
  }

  lemma OwnerDrops(owner: Option<Uuid>, key: string)
    ensures Hit(OwnerPatterns(owner), key) <==> owner.Some? && Contains(key, "user:" + owner.value)
  {
    if owner.Some? {
      UserMeaning(owner.value, key);
      HitBy(UserPattern(owner.value), key);
    }
  }

  lemma BatchDrops(batch: Uuid, key: string)
    ensures Hit([BatchPattern(batch), BATCH_LIST_PATTERN], key) <==> ContainsBefore(key, "/batches")
  {
    ListMeaning(key);
    HitTogether([BatchPattern(batch)], [BATCH_LIST_PATTERN], key);
    assert [BatchPattern(batch), BATCH_LIST_PATTERN] == [BatchPattern(batch)] + [BATCH_LIST_PATTERN];
    HitBy(BatchPattern(batch), key);
    HitBy(BATCH_LIST_PATTERN, key);
    if Match(BatchPattern(batch), key) {
      BatchPatternCovered(batch, key);
    }
  }

  lemma PredictionDrops(batch: Uuid, key: string)
    ensures Hit(PredictionPatterns(batch), key) <==>
      ContainsBefore(key, "/batches") || Contains(key, "/predictions/recent")
  {
    BatchDrops(batch, key);
    RecentMeaning(key);
    HitTogether([BatchPattern(batch), BATCH_LIST_PATTERN], [RECENT_PATTERN], key);
    HitBy(RECENT_PATTERN, key);
    assert PredictionPatterns(batch) == [BatchPattern(batch), BATCH_LIST_PATTERN] + [RECENT_PATTERN];
  }

  lemma UpdateDrops(batch: Uuid, owner: Option<Uuid>, key: string)
    ensures Hit([BatchPattern(batch), BATCH_LIST_PATTERN] + OwnerPatterns(owner), key) <==>
      ContainsBefore(key, "/batches") || (owner.Some? && Contains(key, "user:" + owner.value))
  {
    BatchDrops(batch, key);
    OwnerDrops(owner, key);
    HitTogether([BatchPattern(batch), BATCH_LIST_PATTERN], OwnerPatterns(owner), key);
  }
}
