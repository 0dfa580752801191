/**
 * Progress, from any state the pipeline can reach: without new files and new requests, each step that meets no failure
 * lowers a measure over waiting files, waiting jobs and program counters, and some such step is possible until all is
 * quiet. The one exception is a suspicious file whose place in quarantine is taken; it is retried without end.
 */
module Progress {
  import opened Prelude
  import opened Keys
  import opened World
  import opened System
  import opened SmoothRuns
  import I = Ingest
  import N = Inference
  import D = Demo
  import Q = Requests
  import P = Polling
  import Docs = Documents
  import B = Births
  import R = Refinement
  import Safety

  /** A worker takes a step without failure, or a call of the API that is under way goes on or fails. */
  predicate Productive(s: State, a: Action) {
    match a
    case Begin(raw) => SlashFree(raw) && UploadPath(raw) in s.w.files
    case IngestCall(o, newId) => o == Ok
    case Dequeue => true
    case RunCall(r, o) => o == Ok && r < |s.runs| && N.RunRank(s.runs[r].pc) > 0
    case DemoCall(i, _, _) => i < |s.demos| && !s.demos[i].Closed?
    case RequestCall(q, _) => q < |s.requests| && !s.requests[q].pc.Closed?
    case _ => false
  }

  /** Nothing left to do for anyone. */
  predicate Quiet(s: State) {
    && AtRest(s)
    && (forall i | 0 <= i < |s.demos| :: s.demos[i].Closed?)
    && (forall q | 0 <= q < |s.requests| :: s.requests[q].pc.Closed?)
  }

  /** No file in /upload is one the worker must move to a taken place. */
  ghost predicate NoneBlocked(w: World) {
    forall name :: !P.Blocked(w, name)
  }

  // ---------------------------------------------------------------- the measure

  /** A worker about to look at a file that is not there has a step more to go than an idle one. */
  function IngestRank(files: map<string, Bytes>, pc: I.IngestPc): nat {
    match pc
    case Idle => 40
    case Sizing(name) => if UploadPath(name) in files then 39 else 41
    case Peeking(_) => 38
    case Reading(_) => 37
    case Uploading(_, _) => 36
    case Saving(_) => 35
    case Enqueuing(_, _) => 34
    case Removing(_) => 30
    case Quarantining(_) => 30
    case Finishing(_) => 20
  }

  function RunsRank(runs: seq<RunRecord>): nat {
    if runs == [] then 0 else RunsRank(runs[..|runs| - 1]) + N.RunRank(runs[|runs| - 1].pc)
  }

  /** The last call of a demo puts a job on the queue. */
  function DemoRank(pc: D.DemoPc): nat {
    match pc
    case Uploading(_, _, _) => 11
    case Saving(_, _) => 10
    case Enqueuing(_, _) => 9
    case Closed => 0
  }

  function DemosRank(demos: seq<D.DemoPc>): nat {
    if demos == [] then 0 else DemosRank(demos[..|demos| - 1]) + DemoRank(demos[|demos| - 1])
  }

  function RequestsRank(requests: seq<Q.Request>): nat {
    if requests == [] then 0 else RequestsRank(requests[..|requests| - 1]) + Q.CallsLeft(requests[|requests| - 1].pc)
  }

  /** A file outweighs a whole attempt, a waiting job outweighs a whole run. */
  function Measure(s: State): int {
    50 * |Waiting(s.w.files)| + 8 * (|s.w.jobs| - s.w.head) + IngestRank(s.w.files, s.ingest)
    + RunsRank(s.runs) + DemosRank(s.demos) + RequestsRank(s.requests)
  }

  lemma RunAppended(runs: seq<RunRecord>, run: RunRecord)
    ensures RunsRank(runs + [run]) == RunsRank(runs) + N.RunRank(run.pc)
  {
  }

  lemma {:induction false} RunMoved(runs: seq<RunRecord>, r: nat, run: RunRecord)
    requires r < |runs|
    ensures RunsRank(runs[r := run]) == RunsRank(runs) - N.RunRank(runs[r].pc) + N.RunRank(run.pc)
  {
    var last := |runs| - 1;
    if r == last {
      assert runs[r := run][..last] == runs[..last];
    } else {
      assert runs[r := run][..last] == runs[..last][r := run];
      RunMoved(runs[..last], r, run);
    }
  }

  lemma {:induction false} DemoMoved(demos: seq<D.DemoPc>, i: nat, pc: D.DemoPc)
    requires i < |demos|
    ensures DemosRank(demos[i := pc]) == DemosRank(demos) - DemoRank(demos[i]) + DemoRank(pc)
  {
    var last := |demos| - 1;
    if i == last {
      assert demos[i := pc][..last] == demos[..last];
    } else {
      assert demos[i := pc][..last] == demos[..last][i := pc];
      DemoMoved(demos[..last], i, pc);
    }
  }

  lemma {:induction false} RequestMovedOn(requests: seq<Q.Request>, q: nat, r: Q.Request)
    requires q < |requests|
    ensures RequestsRank(requests[q := r]) == RequestsRank(requests) - Q.CallsLeft(requests[q].pc) + Q.CallsLeft(r.pc)
  {
    var last := |requests| - 1;
    if q == last {
      assert requests[q := r][..last] == requests[..last];
    } else {
      assert requests[q := r][..last] == requests[..last][q := r];
      RequestMovedOn(requests[..last], q, r);
    }
  }

  // ---------------------------------------------------------------- every productive step lowers it

  lemma WaitingName(name: string)
    ensures InUploadDir(UploadPath(name)) && !InUploadDir(QuarantinePath(name))
  {
  }

  /** When its file leaves /upload, there is exactly one fewer waiting. */
  lemma GoneWaiting(files: map<string, Bytes>, name: string, quarantined: bool)
    requires UploadPath(name) in files
    ensures |Waiting(Gone(files, name, quarantined))| == |Waiting(files)| - 1
  {
    WaitingName(name);
    assert Waiting(Gone(files, name, quarantined)) == Waiting(files) - {UploadPath(name)};
  }

  /** No file becomes blocked by another's leaving. */
  lemma GoneUnblocks(w: World, name: string, quarantined: bool)
    requires NoneBlocked(w)
    ensures NoneBlocked(w.(files := Gone(w.files, name, quarantined)))
  {
    PathsApart();
    forall other ensures !P.Blocked(w.(files := Gone(w.files, name, quarantined)), other) {
      assert !P.Blocked(w, other);
    }
  }

  lemma SameFilesUnblocked(w: World, w': World)
    requires NoneBlocked(w) && w'.files == w.files
    ensures NoneBlocked(w')
  {
    forall name ensures !P.Blocked(w', name) {
      assert !P.Blocked(w, name);
    }
  }

  lemma IngestLowers(s: State, newId: Uuid, s': State)
    requires Docs.WorkerKnows(s.ingest, s.w, s.h) && !s.ingest.Idle? && SizingThere(s.w.files, s.ingest)
    requires IngestOk(s, newId, s') && NoneBlocked(s.w)
    ensures Measure(s') < Measure(s) && NoneBlocked(s'.w)
  {
    if s.ingest.Removing? || s.ingest.Finishing? || s.ingest.Quarantining? {
      GoneWaiting(s.w.files, s.ingest.name, s.ingest.Quarantining?);
      GoneUnblocks(s.w, s.ingest.name, s.ingest.Quarantining?);
    } else {
      MovingLowers(s, newId, s');
      SameFilesUnblocked(s.w, s'.w);
    }
  }

  /** While the files stay, the worker gets on by a step, and the job it may queue costs less than that. */
  lemma MovingLowers(s: State, newId: Uuid, s': State)
    requires !s.ingest.Idle? && SizingThere(s.w.files, s.ingest) && IngestOk(s, newId, s')
    requires !s.ingest.Removing? && !s.ingest.Finishing? && !s.ingest.Quarantining?
    ensures Measure(s') < Measure(s) && s'.w.files == s.w.files
  {
  }

  lemma IngestCallLowers(c: Classifier, s: State, newId: Uuid, s': State)
    requires Docs.Inv(s) && NoneBlocked(s.w)
    requires Enabled(s, IngestCall(Ok, newId)) && s' == Apply(c, s, IngestCall(Ok, newId))
    ensures Measure(s') < Measure(s) && NoneBlocked(s'.w)
  {
    if SizingThere(s.w.files, s.ingest) {
      if s.ingest.Quarantining? {
        assert !P.Blocked(s.w, s.ingest.name);
      }
      IngestOkHolds(c, s, newId, s');
      IngestLowers(s, newId, s');
    } else {
      assert s' == s.(ingest := I.Idle);
    }
  }

  lemma RunCallLowers(c: Classifier, s: State, r: nat, s': State)
    requires Enabled(s, RunCall(r, Ok)) && RunSummary(c, s, r, Ok, s') && N.RunRank(s.runs[r].pc) > 0
    ensures Measure(s') < Measure(s) && s'.w.files == s.w.files
  {
    RunMoved(s.runs, r, s'.runs[r]);
  }

  lemma DemoCallLowers(s: State, i: nat, o: Outcome, newId: Uuid, s': State)
    requires i < |s.demos| && !s.demos[i].Closed? && DemoSummary(s, i, o, newId, s')
    ensures Measure(s') < Measure(s) && s'.w.files == s.w.files
  {
    DemoMoved(s.demos, i, s'.demos[i]);
  }

  lemma RequestCallLowers(s: State, q: nat, o: Outcome, s': State)
    requires q < |s.requests| && !s.requests[q].pc.Closed? && RequestSummary(s, q, o, s')
    ensures Measure(s') < Measure(s) && s'.w.files == s.w.files
  {
    RequestMovedOn(s.requests, q, s'.requests[q]);
  }

  lemma BeginLowers(c: Classifier, s: State, raw: string, s': State)
    requires Enabled(s, Begin(raw)) && Productive(s, Begin(raw)) && s' == Apply(c, s, Begin(raw))
    ensures Measure(s') < Measure(s) && s'.w.files == s.w.files
  {
    BareBasename(raw);
  }

  lemma MeasureLowers(c: Classifier, s: State, a: Action, s': State)
    requires Docs.Inv(s) && SessionsShaped(s) && NoneBlocked(s.w)
    requires Productive(s, a) && Enabled(s, a) && s' == Apply(c, s, a)
    ensures Measure(s') < Measure(s) && NoneBlocked(s'.w)
  {
    if a.IngestCall? {
      IngestCallLowers(c, s, a.newId, s');
    } else {
      Summarised(c, s, a, s');
      OtherLowers(c, s, a, s');
      SameFilesUnblocked(s.w, s'.w);
    }
  }

  lemma OtherLowers(c: Classifier, s: State, a: Action, s': State)
    requires !a.IngestCall? && Productive(s, a) && Enabled(s, a) && s' == Apply(c, s, a) && Summary(c, s, a, s')
    ensures Measure(s') < Measure(s) && s'.w.files == s.w.files
  {
    match a
    case Begin(raw) => BeginLowers(c, s, raw, s');
    case Dequeue => RunAppended(s.runs, RunRecord(s.w.head, N.Downloading, None));
    case RunCall(r, o) => RunCallLowers(c, s, r, s');
    case DemoCall(i, o, newId) => DemoCallLowers(s, i, o, newId, s');
    case RequestCall(q, o) => RequestCallLowers(s, q, o, s');
  }

  // ---------------------------------------------------------------- chains of productive steps

  /** Somebody makes progress from `s` to `s'`. */
  ghost predicate Advances(c: Classifier, s: State, s': State) {
    exists a :: Enabled(s, a) && Productive(s, a) && s' == Apply(c, s, a)
  }

  lemma AdvanceLowers(c: Classifier, s: State, s': State)
    requires Safety.Reachable(c, s) && NoneBlocked(s.w) && Advances(c, s, s')
    ensures Measure(s') < Measure(s) && Safety.Reachable(c, s') && NoneBlocked(s'.w)
  {
    var a :| Enabled(s, a) && Productive(s, a) && s' == Apply(c, s, a);
    Safety.ReachableInv(c, s);
    MeasureLowers(c, s, a, s');
    NextReachable(c, s, a, s');
  }

  lemma NextReachable(c: Classifier, s: State, a: Action, s': State)
    requires Safety.Reachable(c, s) && Enabled(s, a) && s' == Apply(c, s, a)
    ensures Safety.Reachable(c, s')
  {
    R.Stay(c, s');
    R.Step(c, s, a, s', s');
    R.ReachOn(c, s, s');
  }

  /** A chain of productive steps from `s`. */
  ghost predicate ChainFrom(c: Classifier, s: State, chain: seq<State>) {
    |chain| > 0 && chain[0] == s && forall i | 0 <= i < |chain| - 1 :: Advances(c, chain[i], chain[i + 1])
  }

  lemma {:induction false} ChainLowers(c: Classifier, s: State, chain: seq<State>, k: nat)
    requires Safety.Reachable(c, s) && NoneBlocked(s.w) && ChainFrom(c, s, chain) && k < |chain|
    ensures Safety.Reachable(c, chain[k]) && NoneBlocked(chain[k].w) && Measure(chain[k]) + k <= Measure(s)
  {
    if k > 0 {
      ChainLowers(c, s, chain, k - 1);
      assert Advances(c, chain[k - 1], chain[k - 1 + 1]);
      AdvanceLowers(c, chain[k - 1], chain[k]);
    }
  }

  lemma MeasureBounded(c: Classifier, s: State)
    requires Safety.Reachable(c, s)
    ensures Measure(s) >= 0
  {
    Safety.ReachableInv(c, s);
  }

  /** However everyone is scheduled, all comes to rest: no chain of productive steps is longer than the measure. */
  lemma ChainsAreBounded(c: Classifier, s: State, chain: seq<State>)
    requires Safety.Reachable(c, s) && NoneBlocked(s.w) && ChainFrom(c, s, chain)
    ensures |chain| - 1 <= Measure(s)
  {
    ChainLowers(c, s, chain, |chain| - 1);
    MeasureBounded(c, chain[|chain| - 1]);
  }

  // ---------------------------------------------------------------- some step is possible

  lemma FileToBegin(s: State) returns (name: string)
    requires Docs.Inv(s) && Waiting(s.w.files) != {}
    ensures SlashFree(name) && UploadPath(name) in s.w.files
  {
    var path :| path in Waiting(s.w.files);
    name := path[8..];
    assert path == path[..8] + name && path == UploadPath(name);
    assert s.h.drops[s.h.current[name]].name == name;
  }

  /** Until all is quiet some productive step is enabled, given an id for a new batch. */
  lemma SomeStepPossible(c: Classifier, s: State, newId: Uuid)
    requires Safety.Reachable(c, s) && newId !in s.w.batches && !Quiet(s)
    ensures exists s' :: Advances(c, s, s')
  {
    Safety.ReachableInv(c, s);
    var a: Action;
    if !AtRest(s) {
      a := WorkerStep(c, s, newId);
    } else if i :| 0 <= i < |s.demos| && !s.demos[i].Closed? {
      a := DemoCall(i, Ok, newId);
    } else {
      var q :| 0 <= q < |s.requests| && !s.requests[q].pc.Closed?;
      a := RequestCall(q, Ok);
    }
    StepTaken(c, s, a);
  }

  lemma WorkerStep(c: Classifier, s: State, newId: Uuid) returns (a: Action)
    requires Docs.Inv(s) && B.RunsTaken(s.w, s.runs) && newId !in s.w.batches && !AtRest(s)
    ensures Enabled(s, a) && Productive(s, a)
  {
    a := if !s.ingest.Idle? then IngestCall(Ok, newId) else Dequeue;
    if s.ingest.Idle? && Waiting(s.w.files) != {} {
      var name := FileToBegin(s);
      a := Begin(name);
    } else if s.ingest.Idle? && s.w.head >= |s.w.jobs| {
      var r := RunToContinue(s);
      a := RunCall(r, Ok);
    }
  }

  lemma RunToContinue(s: State) returns (r: nat)
    requires !AtRest(s) && s.ingest.Idle? && Waiting(s.w.files) == {} && s.w.head >= |s.w.jobs|
    requires B.RunsTaken(s.w, s.runs)
    ensures r < |s.runs| && N.RunRank(s.runs[r].pc) > 0 && s.runs[r].job < |s.w.jobs|
  {
    r :| r < |s.runs| && N.RunRank(s.runs[r].pc) > 0;
  }

  lemma StepTaken(c: Classifier, s: State, a: Action)
    requires Enabled(s, a) && Productive(s, a)
    ensures exists s' :: Advances(c, s, s')
  {
    assert Advances(c, s, Apply(c, s, a));
  }

  // ---------------------------------------------------------------- a blocked file

  /** The id will do for the batch of a file the worker may still be busy with. */
  predicate Usable(s: State, name: string, newId: Uuid) {
    !s.ingest.Idle? && s.ingest.name != name ==> newId !in s.w.batches || I.Remaining(s.ingest) < 4
  }

  /** The worker can always take one more step, and the file is blocked as before. */
  lemma BlockedStep(c: Classifier, s: State, name: string, newId: Uuid) returns (s': State)
    requires Safety.Reachable(c, s) && P.Blocked(s.w, name) && Usable(s, name, newId)
    ensures Safety.Reachable(c, s') && P.Blocked(s'.w, name) && Usable(s', name, newId) && Advances(c, s, s')
  {
    DocumentsKnown(c, s);
    if s.ingest.Idle? {
      s' := BlockedBegin(c, s, name, newId);
      NextReachable(c, s, Begin(name), s');
    } else {
      s' := BlockedCall(c, s, name, newId);
      NextReachable(c, s, IngestCall(Ok, newId), s');
    }
    assert Advances(c, s, s');
  }

  lemma DocumentsKnown(c: Classifier, s: State)
    requires Safety.Reachable(c, s)
    ensures Docs.Inv(s)
  {
    Safety.ReachableInv(c, s);
  }

  lemma BlockedCall(c: Classifier, s: State, name: string, newId: Uuid) returns (s': State)
    requires Docs.WorkerKnows(s.ingest, s.w, s.h) && !s.ingest.Idle? && P.Blocked(s.w, name) && Usable(s, name, newId)
    ensures Enabled(s, IngestCall(Ok, newId)) && s' == Apply(c, s, IngestCall(Ok, newId))
    ensures P.Blocked(s'.w, name) && Usable(s', name, newId)
  {
    BlockedStays(s, name, newId);
    s' := Apply(c, s, IngestCall(Ok, newId));
  }

  lemma BlockedBegin(c: Classifier, s: State, name: string, newId: Uuid) returns (s': State)
    requires Docs.Inv(s) && P.Blocked(s.w, name) && s.ingest.Idle?
    ensures Enabled(s, Begin(name)) && Productive(s, Begin(name)) && s' == Apply(c, s, Begin(name))
    ensures P.Blocked(s'.w, name) && Usable(s', name, newId)
  {
    BlockedBare(s, name);
    BareBasename(name);
    s' := Apply(c, s, Begin(name));
  }

  lemma BlockedBare(s: State, name: string)
    requires Docs.Inv(s) && P.Blocked(s.w, name)
    ensures SlashFree(name)
  {
    assert s.h.drops[s.h.current[name]].name == name;
  }

  lemma BlockedStays(s: State, name: string, newId: Uuid)
    requires Docs.WorkerKnows(s.ingest, s.w, s.h) && !s.ingest.Idle? && P.Blocked(s.w, name) && Usable(s, name, newId)
    ensures s.ingest.Saving? ==> newId !in s.w.batches
    ensures var (w', pc') := I.IngestStep(s.w, s.ingest, Ok, newId);
      && P.Blocked(w', name)
      && (!pc'.Idle? && pc'.name != name ==> newId !in w'.batches || I.Remaining(pc') < 4)
  {
    P.PathsOf(name, s.ingest.name);
    P.PathsOf(s.ingest.name, name);
    if s.ingest.Saving? {
      CommitOne(s.w, AddBatch(newId, I.NewBatch(UploadPath(s.ingest.name), None)));
    }
  }

  lemma ChainPrepended(c: Classifier, s: State, s': State, rest: seq<State>)
    requires Advances(c, s, s') && ChainFrom(c, s', rest)
    ensures ChainFrom(c, s, [s] + rest)
  {
    var chain := [s] + rest;
    forall i | 0 <= i < |chain| - 1 ensures Advances(c, chain[i], chain[i + 1]) {
      if i > 0 {
        assert Advances(c, rest[i - 1], rest[i - 1 + 1]);
      }
    }
  }

  lemma {:induction false} LongChain(c: Classifier, s: State, name: string, newId: Uuid, n: nat)
    returns (chain: seq<State>)
    requires Safety.Reachable(c, s) && P.Blocked(s.w, name) && Usable(s, name, newId)
    ensures ChainFrom(c, s, chain) && |chain| == n + 1
    decreases n
  {
    if n == 0 {
      chain := [s];
    } else {
      var s' := BlockedStep(c, s, name, newId);
      var rest := LongChain(c, s', name, newId, n - 1);
      chain := [s] + rest;
      ChainPrepended(c, s, s', rest);
    }
  }

  /** No chain of productive steps from `s` has more than `n` states. */
  ghost predicate Bounded(c: Classifier, s: State, n: nat) {
    forall chain :: ChainFrom(c, s, chain) ==> |chain| <= n
  }

  /** The pipeline is sure to come to rest if and only if no file is blocked. */
  lemma RestsExactlyWhenNoneBlocked(c: Classifier, s: State, newId: Uuid)
    requires Safety.Reachable(c, s) && newId !in s.w.batches
    ensures (exists n :: Bounded(c, s, n)) <==> NoneBlocked(s.w)
  {
    if NoneBlocked(s.w) {
      MeasureBounded(c, s);
      forall chain | ChainFrom(c, s, chain) ensures |chain| <= Measure(s) + 1 {
        ChainsAreBounded(c, s, chain);
      }
      assert Bounded(c, s, Measure(s) + 1);
    } else {
      var name :| P.Blocked(s.w, name);
      forall n ensures !Bounded(c, s, n) {
        var chain := LongChain(c, s, name, newId, n);
        assert ChainFrom(c, s, chain);
      }
    }
  }
}
