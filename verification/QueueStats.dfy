/** The queue statistics endpoint: four counts folded from a GROUP BY over the status column, which is plain text. */
module QueueStats {
  import opened Keys
  import opened World

  datatype Stats = Stats(pending: nat, processing: nat, done: nat, failed: nat)

  /** The text the status column holds. */
  function Text(s: BatchStatus): string {
    match s
    case Pending => "pending"
    case Processing => "processing"
    case Done => "done"
    case Failed => "failed"
  }

  type Column = map<Uuid, string>

  function StatusColumn(batches: map<Uuid, Batch>): Column {
    map b | b in batches :: Text(batches[b].status)
  }

  function With(column: Column, text: string): set<Uuid> {
    set b | b in column && column[b] == text
  }

  /** The answer to SELECT status, count(id) GROUP BY status: one row per value that occurs, in any order. */
  predicate GroupedBy(column: Column, rows: seq<(string, nat)>) {
    && (forall i, j | 0 <= i < j < |rows| :: rows[i].0 != rows[j].0)
    && (forall i | 0 <= i < |rows| :: rows[i].1 == |With(column, rows[i].0)|)
    && (forall b | b in column :: exists i :: 0 <= i < |rows| && rows[i].0 == column[b])
  }

  /** Whatever the order of the rows, each count is the number of batches with that status; an absent group counts 0. */
  method CountByStatus(rows: seq<(string, nat)>, ghost column: Column) returns (stats: Stats)
    requires GroupedBy(column, rows)
    ensures stats.pending == |With(column, "pending")|
    ensures stats.processing == |With(column, "processing")|
    ensures stats.done == |With(column, "done")|
    ensures stats.failed == |With(column, "failed")|
  {
    var counts: map<string, nat> := map[];
    for i := 0 to |rows|
      invariant forall k | k in counts :: counts[k] == |With(column, k)|
      invariant forall j | 0 <= j < i :: rows[j].0 in counts
    {
      counts := counts[rows[i].0 := rows[i].1];
    }
    forall b | b in column ensures column[b] in counts {
      var i :| 0 <= i < |rows| && rows[i].0 == column[b];
    }
    forall text | text !in counts ensures With(column, text) == {} {}
    stats := Stats(Get(counts, "pending"), Get(counts, "processing"), Get(counts, "done"), Get(counts, "failed"));
  }

  function Get(counts: map<string, nat>, key: string): nat {
    if key in counts then counts[key] else 0
  }

  const TEXTS := {"pending", "processing", "done", "failed"}

  function Total(column: Column): nat {
    |With(column, "pending")| + |With(column, "processing")| + |With(column, "done")| + |With(column, "failed")|
  }

  /** The four counts add up to the number of batches if and only if every status is one of the four texts. */
  lemma CountsAddUp(column: Column)
    ensures Total(column) == |column| <==> forall b | b in column :: column[b] in TEXTS
  {
    var known := set b | b in column && column[b] in TEXTS;
    KnownCount(column, known);
    var unknown := column.Keys - known;
    assert column.Keys == known + unknown;
    assert |column| == |column.Keys| == |known| + |unknown|;
    assert forall b | b in column :: b in unknown <==> column[b] !in TEXTS;
    assert |unknown| == 0 <==> unknown == {};
  }

  lemma KnownCount(column: Column, known: set<Uuid>)
    requires known == set b | b in column && column[b] in TEXTS
    ensures |known| == Total(column)
  {
    TextsDiffer();
    FourWay(column, "pending", "processing", "done", "failed", known);
  }

  lemma FourWay(column: Column, t1: string, t2: string, t3: string, t4: string, known: set<Uuid>)
    requires t1 != t2 && t1 != t3 && t1 != t4 && t2 != t3 && t2 != t4 && t3 != t4
    requires forall b :: b in known <==>
      b in column && (column[b] == t1 || column[b] == t2 || column[b] == t3 || column[b] == t4)
    ensures |known| == |With(column, t1)| + |With(column, t2)| + |With(column, t3)| + |With(column, t4)|
  {
    var p, r, d, f := With(column, t1), With(column, t2), With(column, t3), With(column, t4);
    assert known == p + r + d + f;
    Disjoint(p, r);
    Disjoint(p + r, d);
    Disjoint(p + r + d, f);
  }

  lemma TextsDiffer()
    ensures "pending" != "processing" && "pending" != "done" && "pending" != "failed"
    ensures "processing" != "done" && "processing" != "failed" && "done" != "failed"
  {
  }

  lemma Disjoint(a: set<Uuid>, b: set<Uuid>)
    requires a !! b
    ensures |a + b| == |a| + |b|
  {
  }

  // ---------------------------------------------------------------- what the writers put into the column

  /** A write of the application as the column sees it: rows start with a text, updates put another one. */
  function ColumnWrite(column: Column, x: Write): Column {
    match x
    case AddBatch(id, row) => column[id := Text(row.status)]
    case UpdateStatus(id, status) => if id in column then column[id := Text(status)] else column
    case _ => column
  }

  function ColumnAfter(column: Column, writes: seq<Write>): Column {
    if writes == [] then column else ColumnWrite(ColumnAfter(column, writes[..|writes| - 1]), writes[|writes| - 1])
  }

  predicate KnownTexts(column: Column) {
    forall b | b in column :: column[b] in TEXTS
  }

  lemma TextKnown(status: BatchStatus)
    ensures Text(status) in TEXTS
  {
  }

  /** The batches of one status. */
  function OfStatus(batches: map<Uuid, Batch>, status: BatchStatus): set<Uuid> {
    set b | b in batches && batches[b].status == status
  }

  /** The statistics of the batches: each figure is the number of batches with the status it is named after. */
  method QueueFigures(rows: seq<(string, nat)>, ghost batches: map<Uuid, Batch>) returns (stats: Stats)
    requires GroupedBy(StatusColumn(batches), rows)
    ensures stats.pending == |OfStatus(batches, Pending)| && stats.processing == |OfStatus(batches, Processing)|
    ensures stats.done == |OfStatus(batches, Done)| && stats.failed == |OfStatus(batches, Failed)|
    ensures stats.pending + stats.processing + stats.done + stats.failed == |batches|
  {
    stats := CountByStatus(rows, StatusColumn(batches));
    EachTextItsStatus(batches);
    ColumnKnown(batches);
  }

  lemma EachTextItsStatus(batches: map<Uuid, Batch>)
    ensures With(StatusColumn(batches), "pending") == OfStatus(batches, Pending)
    ensures With(StatusColumn(batches), "processing") == OfStatus(batches, Processing)
    ensures With(StatusColumn(batches), "done") == OfStatus(batches, Done)
    ensures With(StatusColumn(batches), "failed") == OfStatus(batches, Failed)
  {
    TextsDiffer();
    forall b | b in batches
      ensures (Text(batches[b].status) == "pending" <==> batches[b].status == Pending)
        && (Text(batches[b].status) == "processing" <==> batches[b].status == Processing)
        && (Text(batches[b].status) == "done" <==> batches[b].status == Done)
        && (Text(batches[b].status) == "failed" <==> batches[b].status == Failed)
    {
      TextIs(batches[b].status);
    }
  }

  lemma TextIs(status: BatchStatus)
    ensures Text(status) == "pending" <==> status == Pending
    ensures Text(status) == "processing" <==> status == Processing
    ensures Text(status) == "done" <==> status == Done
    ensures Text(status) == "failed" <==> status == Failed
  {
    TextsDiffer();
  }

  lemma ColumnKnown(batches: map<Uuid, Batch>)
    ensures Total(StatusColumn(batches)) == |batches|
  {
    forall b | b in batches ensures Text(batches[b].status) in TEXTS {
      TextKnown(batches[b].status);
    }
    CountsAddUp(StatusColumn(batches));
    ColumnSize(batches);
  }

  lemma ColumnSize(batches: map<Uuid, Batch>)
    ensures |StatusColumn(batches)| == |batches|
  {
    assert StatusColumn(batches).Keys == batches.Keys;
    assert |StatusColumn(batches)| == |StatusColumn(batches).Keys| && |batches| == |batches.Keys|;
  }

  /** No write brings another text in: from a column of known texts the counts always add up, whatever is written. */
  lemma {:induction false} WritersKeepTexts(column: Column, writes: seq<Write>)
    requires KnownTexts(column)
    ensures var column' := ColumnAfter(column, writes); KnownTexts(column') && Total(column') == |column'|
  {
    if writes != [] {
      var last := writes[|writes| - 1];
      WritersKeepTexts(column, writes[..|writes| - 1]);
      if last.AddBatch? {
        TextKnown(last.row.status);
      } else if last.UpdateStatus? {
        TextKnown(last.status);
      }
    }
    CountsAddUp(ColumnAfter(column, writes));
  }

  /** The column is what the committed writes made of it. */
  lemma {:induction false} ColumnFollowsCommits(w: World, writes: seq<Write>)
    ensures StatusColumn(Commit(w, writes).batches) == ColumnAfter(StatusColumn(w.batches), writes)
  {
    if writes != [] {
      ColumnFollowsCommits(w, writes[..|writes| - 1]);
    }
  }

  /** So the statistics account for every batch, after any series of committed writes. */
  lemma StatusTextsKnown(w: World, writes: seq<Write>)
    ensures Total(StatusColumn(Commit(w, writes).batches)) == |Commit(w, writes).batches|
  {
    forall b | b in w.batches ensures Text(w.batches[b].status) in TEXTS {
      TextKnown(w.batches[b].status);
    }
    ColumnFollowsCommits(w, writes);
    WritersKeepTexts(StatusColumn(w.batches), writes);
    ColumnSize(Commit(w, writes).batches);
  }
}
