/** The poll loop as a function of what each turn meets: isolation between files, progress, and when the worker dies. */
module Polling {
  import opened Prelude
  import opened Keys
  import opened World
  import opened Ingest

  /** A listed name, how its calls will fare, and the id its batch would get. */
  datatype Entry = Entry(raw: string, faults: Faults, newId: Uuid)

  /** What list_dir answers in one turn of the loop. */
  datatype Turn =
    | Listed(entries: seq<Entry>)
    | DirectoryMissing                      // logged, and treated as an empty listing
    | ListingFailed(reconnect: Outcome)     // the connection broke; how the reconnection fares

  /** One attempt per listed name, in order. */
  function Sweep(w: World, entries: seq<Entry>): World
    decreases |entries|
  {
    if entries == [] then w
    else Sweep(Attempt(w, Start(entries[0].raw), entries[0].faults, entries[0].newId), entries[1..])
  }

  lemma SweepUnrolls(w: World, entries: seq<Entry>, w': World)
    requires entries != [] && w' == Attempt(w, Start(entries[0].raw), entries[0].faults, entries[0].newId)
    ensures Sweep(w, entries) == Sweep(w', entries[1..])
  {
  }

  function TurnEffect(w: World, t: Turn): World {
    if t.Listed? then Sweep(w, t.entries) else w
  }

  predicate ConnectedAfter(connected: bool, t: Turn) {
    connected && (t.ListingFailed? ==> t.reconnect == Ok)
  }

  // ---------------------------------------------------------------- one file's share of the stores

  /** Everything the stores hold about one base name. */
  datatype Share = Share(upload: Option<Bytes>, quarantine: Option<Bytes>, stored: Option<Bytes>,
                         recorded: map<Uuid, Batch>, queued: seq<Job>)

  function Lookup(m: map<string, Bytes>, k: string): Option<Bytes> {
    if k in m then Some(m[k]) else None
  }

  function RecordedFor(batches: map<Uuid, Batch>, name: string): map<Uuid, Batch> {
    map b | b in batches && batches[b].path == UploadPath(name) :: batches[b]
  }

  function QueuedFor(jobs: seq<Job>, name: string): seq<Job> {
    if jobs == [] then []
    else
      var last := |jobs| - 1;
      QueuedFor(jobs[..last], name) + (if jobs[last].blobKey == name then [jobs[last]] else [])
  }

  function ShareOf(w: World, name: string): Share {
    Share(Lookup(w.files, UploadPath(name)), Lookup(w.files, QuarantinePath(name)), Lookup(w.bucket, name),
          RecordedFor(w.batches, name), QueuedFor(w.jobs, name))
  }

  lemma QueuedForAppended(jobs: seq<Job>, job: Job, name: string)
    ensures QueuedFor(jobs + [job], name) == QueuedFor(jobs, name) + (if job.blobKey == name then [job] else [])
  {
  }

  /** The paths of two different names, and the two paths of one. */
  lemma PathsOf(name: string, other: string)
    ensures UploadPath(name) != QuarantinePath(name) && UploadPath(name) != QuarantinePath(other)
    ensures QuarantinePath(name) != UploadPath(other)
    ensures other != name ==> UploadPath(name) != UploadPath(other) && QuarantinePath(name) != QuarantinePath(other)
  {
  }

  /** A step for one name leaves every other name's share alone. */
  lemma StepLeavesOthers(w: World, pc: IngestPc, name: string, other: string, o: Outcome, newId: Uuid)
    requires pc.Idle? || pc.name == name
    requires other != name && (pc.Saving? ==> newId !in w.batches)
    ensures ShareOf(IngestStep(w, pc, o, newId).0, other) == ShareOf(w, other)
  {
    PathsOf(name, other);
    if pc.Saving? {
      CommitOne(w, AddBatch(newId, NewBatch(UploadPath(name), None)));
      SavedElsewhere(w.batches, name, other, newId);
    } else if pc.Enqueuing? {
      QueuedForAppended(w.jobs, JobFor(pc.batch, name), other);
    }
  }

  lemma SavedElsewhere(batches: map<Uuid, Batch>, name: string, other: string, newId: Uuid)
    requires UploadPath(name) != UploadPath(other) && newId !in batches
    ensures RecordedFor(batches[newId := NewBatch(UploadPath(name), None)], other) == RecordedFor(batches, other)
  {
  }

  /** What a step makes of its own name's share, and where it goes next, depend on that share alone. */
  lemma StepReadsOwnShare(w1: World, w2: World, pc: IngestPc, name: string, o: Outcome, newId: Uuid)
    requires !pc.Idle? && pc.name == name && ShareOf(w1, name) == ShareOf(w2, name)
    ensures IngestStep(w1, pc, o, newId).1 == IngestStep(w2, pc, o, newId).1
    ensures ShareOf(IngestStep(w1, pc, o, newId).0, name) == ShareOf(IngestStep(w2, pc, o, newId).0, name)
  {
    match pc
    case Saving(_) => SaveReadsOwnShare(w1, w2, name, o, newId);
    case Enqueuing(_, batch) => EnqueueReadsOwnShare(w1, w2, name, batch, o, newId);
    case Uploading(_, data) => UploadReadsOwnShare(w1, w2, name, data, o, newId);
    case _ => FileStepReadsOwnShare(w1, w2, pc, name, o, newId);
  }

  lemma SaveReadsOwnShare(w1: World, w2: World, name: string, o: Outcome, newId: Uuid)
    requires ShareOf(w1, name) == ShareOf(w2, name)
    ensures IngestStep(w1, Saving(name), o, newId).1 == IngestStep(w2, Saving(name), o, newId).1
    ensures ShareOf(IngestStep(w1, Saving(name), o, newId).0, name) ==
      ShareOf(IngestStep(w2, Saving(name), o, newId).0, name)
  {
    RecordedGrow(w1, name, newId);
    RecordedGrow(w2, name, newId);
  }

  lemma EnqueueReadsOwnShare(w1: World, w2: World, name: string, batch: Uuid, o: Outcome, newId: Uuid)
    requires ShareOf(w1, name) == ShareOf(w2, name)
    ensures var pc := Enqueuing(name, batch);
      && IngestStep(w1, pc, o, newId).1 == IngestStep(w2, pc, o, newId).1
      && ShareOf(IngestStep(w1, pc, o, newId).0, name) == ShareOf(IngestStep(w2, pc, o, newId).0, name)
  {
  }

  lemma UploadReadsOwnShare(w1: World, w2: World, name: string, data: Bytes, o: Outcome, newId: Uuid)
    requires ShareOf(w1, name) == ShareOf(w2, name)
    ensures var pc := Uploading(name, data);
      && IngestStep(w1, pc, o, newId).1 == IngestStep(w2, pc, o, newId).1
      && ShareOf(IngestStep(w1, pc, o, newId).0, name) == ShareOf(IngestStep(w2, pc, o, newId).0, name)
  {
  }

  lemma FileStepReadsOwnShare(w1: World, w2: World, pc: IngestPc, name: string, o: Outcome, newId: Uuid)
    requires !pc.Idle? && pc.name == name && ShareOf(w1, name) == ShareOf(w2, name)
    requires !pc.Saving? && !pc.Enqueuing? && !pc.Uploading?
    ensures IngestStep(w1, pc, o, newId).1 == IngestStep(w2, pc, o, newId).1
    ensures ShareOf(IngestStep(w1, pc, o, newId).0, name) == ShareOf(IngestStep(w2, pc, o, newId).0, name)
  {
    PathsOf(name, name);
    assert Lookup(w1.files, UploadPath(name)) == Lookup(w2.files, UploadPath(name));
    assert Lookup(w1.files, QuarantinePath(name)) == Lookup(w2.files, QuarantinePath(name));
  }

  lemma RecordedGrow(w: World, name: string, newId: Uuid)
    ensures var w' := Commit(w, [AddBatch(newId, NewBatch(UploadPath(name), None))]);
      && w' == w.(batches := w.batches[newId := NewBatch(UploadPath(name), None)])
      && RecordedFor(w'.batches, name) == RecordedFor(w.batches, name)[newId := NewBatch(UploadPath(name), None)]
  {
  }

  /** Until the row is saved, its id stays unused. */
  lemma StepKeepsIdFree(w: World, pc: IngestPc, o: Outcome, newId: Uuid, w': World, pc': IngestPc)
    requires Remaining(pc) >= 4 ==> newId !in w.batches
    requires !pc.Idle? && IngestStep(w, pc, o, newId) == (w', pc')
    ensures Remaining(pc') >= 4 ==> newId !in w'.batches
    ensures pc'.Idle? || pc'.name == pc.name
    ensures w.batches.Keys <= w'.batches.Keys <= w.batches.Keys + {newId}
  {
    if pc.Saving? {
      CommitOne(w, AddBatch(newId, NewBatch(UploadPath(pc.name), None)));
    }
  }

  lemma {:induction false} AttemptLeavesOthers(w: World, pc: IngestPc, name: string, other: string, f: Faults,
                                               newId: Uuid)
    requires pc.Idle? || pc.name == name
    requires other != name && (Remaining(pc) >= 4 ==> newId !in w.batches)
    ensures ShareOf(Attempt(w, pc, f, newId), other) == ShareOf(w, other)
    ensures w.batches.Keys <= Attempt(w, pc, f, newId).batches.Keys <= w.batches.Keys + {newId}
    decreases Remaining(pc)
  {
    if !pc.Idle? {
      var (w', pc') := IngestStep(w, pc, FaultAt(f, pc), newId);
      StepLeavesOthers(w, pc, name, other, FaultAt(f, pc), newId);
      StepKeepsIdFree(w, pc, FaultAt(f, pc), newId, w', pc');
      AttemptLeavesOthers(w', pc', name, other, f, newId);
    }
  }

  lemma {:induction false} AttemptReadsOwnShare(w1: World, w2: World, pc: IngestPc, name: string, f: Faults,
                                                newId: Uuid)
    requires pc.Idle? || pc.name == name
    requires ShareOf(w1, name) == ShareOf(w2, name)
    ensures ShareOf(Attempt(w1, pc, f, newId), name) == ShareOf(Attempt(w2, pc, f, newId), name)
    decreases Remaining(pc)
  {
    if !pc.Idle? {
      var o := FaultAt(f, pc);
      StepReadsOwnShare(w1, w2, pc, name, o, newId);
      var (w1', pc') := IngestStep(w1, pc, o, newId);
      var w2' := IngestStep(w2, pc, o, newId).0;
      AttemptReadsOwnShare(w1', w2', pc', name, f, newId);
    }
  }

  // ---------------------------------------------------------------- isolation

  /** The ids handed out during a turn are new and different. */
  predicate NewIds(batches: set<Uuid>, entries: seq<Entry>) {
    && (forall i | 0 <= i < |entries| :: entries[i].newId !in batches)
    && (forall i, j | 0 <= i < j < |entries| :: entries[i].newId != entries[j].newId)
  }

  /** The entries that reduce to this base name. */
  function Only(entries: seq<Entry>, name: string): seq<Entry> {
    if entries == [] then []
    else (if Basename(entries[0].raw) == name then [entries[0]] else []) + Only(entries[1..], name)
  }

  lemma NewIdsLater(batches: set<Uuid>, batches': set<Uuid>, entries: seq<Entry>)
    requires entries != [] && NewIds(batches, entries) && batches' <= batches + {entries[0].newId}
    ensures NewIds(batches', entries[1..])
  {
  }

  lemma FirstAttempt(w: World, entries: seq<Entry>, other: string)
    requires entries != [] && NewIds(w.batches.Keys, entries) && Basename(entries[0].raw) != other
    ensures var e := entries[0]; var w' := Attempt(w, Start(e.raw), e.faults, e.newId);
      ShareOf(w', other) == ShareOf(w, other) && NewIds(w'.batches.Keys, entries[1..])
  {
    var e := entries[0];
    AttemptElsewhere(w, e, other);
    NewIdsLater(w.batches.Keys, Attempt(w, Start(e.raw), e.faults, e.newId).batches.Keys, entries);
  }

  lemma AttemptElsewhere(w: World, e: Entry, other: string)
    requires e.newId !in w.batches && Basename(e.raw) != other
    ensures var w' := Attempt(w, Start(e.raw), e.faults, e.newId);
      ShareOf(w', other) == ShareOf(w, other) && w'.batches.Keys <= w.batches.Keys + {e.newId}
  {
    StartName(e.raw);
    AttemptLeavesOthers(w, Start(e.raw), Basename(e.raw), other, e.faults, e.newId);
  }

  lemma StartName(raw: string)
    ensures Start(raw).Idle? || Start(raw) == Sizing(Basename(raw))
  {
  }

  lemma OwnAttempt(w: World, entries: seq<Entry>)
    requires entries != [] && NewIds(w.batches.Keys, entries)
    ensures var e := entries[0]; NewIds(Attempt(w, Start(e.raw), e.faults, e.newId).batches.Keys, entries[1..])
  {
    var e := entries[0];
    var name := Basename(e.raw);
    assert |name + "x"| != |name|;
    AttemptElsewhere(w, e, name + "x");
    NewIdsLater(w.batches.Keys, Attempt(w, Start(e.raw), e.faults, e.newId).batches.Keys, entries);
  }

  /** The entries of other names may as well not have been listed, whatever failed on them. */
  lemma {:induction false} OthersDoNotMatter(w1: World, w2: World, entries: seq<Entry>, name: string)
    requires ShareOf(w1, name) == ShareOf(w2, name) && NewIds(w1.batches.Keys, entries)
    ensures ShareOf(Sweep(w1, entries), name) == ShareOf(Sweep(w2, Only(entries, name)), name)
    decreases |entries|
  {
    if entries != [] {
      var e := entries[0];
      var w1' := Attempt(w1, Start(e.raw), e.faults, e.newId);
      SweepUnrolls(w1, entries, w1');
      if Basename(e.raw) == name {
        var w2' := Attempt(w2, Start(e.raw), e.faults, e.newId);
        AttemptReadsOwnShare(w1, w2, Start(e.raw), name, e.faults, e.newId);
        OwnAttempt(w1, entries);
        assert Only(entries, name)[0] == e && Only(entries, name)[1..] == Only(entries[1..], name);
        SweepUnrolls(w2, Only(entries, name), w2');
        OthersDoNotMatter(w1', w2', entries[1..], name);
      } else {
        FirstAttempt(w1, entries, name);
        assert Only(entries, name) == Only(entries[1..], name);
        OthersDoNotMatter(w1', w2, entries[1..], name);
      }
    }
  }

  /** Isolation: turns that treat one name's entries alike leave that name alike, however they differ elsewhere. */
  lemma TurnIsolation(w: World, es1: seq<Entry>, es2: seq<Entry>, name: string)
    requires NewIds(w.batches.Keys, es1) && NewIds(w.batches.Keys, es2)
    requires Only(es1, name) == Only(es2, name)
    ensures ShareOf(Sweep(w, es1), name) == ShareOf(Sweep(w, es2), name)
  {
    OthersDoNotMatter(w, w, es1, name);
    OthersDoNotMatter(w, w, es2, name);
  }

  // ---------------------------------------------------------------- progress

  predicate Uploaded(w: World, name: string) {
    UploadPath(name) in w.files
  }

  /** Suspicious contents whose place in quarantine is taken: the rename is refused at every attempt. */
  predicate Blocked(w: World, name: string) {
    Uploaded(w, name) && Suspicious(name, w.files[UploadPath(name)]) && QuarantinePath(name) in w.files
  }

  predicate NoFaults(entries: seq<Entry>) {
    forall i | 0 <= i < |entries| :: entries[i].faults == NO_FAULTS
  }

  /** One undisturbed attempt on a name: gone unless blocked, and a blocked file stays as it is. */
  lemma CleanAttempt(w: World, raw: string, newId: Uuid)
    requires Start(raw) != Idle
    ensures var w' := Attempt(w, Start(raw), NO_FAULTS, newId); var name := Basename(raw);
      if Blocked(w, name) then w' == w else !Uploaded(w', name)
  {
    var name := Basename(raw);
    StartName(raw);
    if Blocked(w, name) {
      BlockedAttempt(w, name, NO_FAULTS, newId);
    } else {
      AttemptRefinesTable(w, raw, NO_FAULTS, newId);
      DisposedLeaves(w, raw, newId);
    }
  }

  /** Whatever fails or does not, an attempt on a blocked file changes nothing. */
  lemma BlockedAttempt(w: World, name: string, f: Faults, newId: Uuid)
    requires Blocked(w, name)
    ensures Attempt(w, Sizing(name), f, newId) == w
  {
    var looked := if f.size == Ok then Peeking(name) else Idle;
    AttemptStep(w, Sizing(name), f, newId, w, looked);
    if f.size == Ok {
      AttemptStep(w, Peeking(name), f, newId, w, if f.head == Ok then Quarantining(name) else Idle);
      if f.head == Ok {
        AttemptStep(w, Quarantining(name), f, newId, w, Idle);
      }
    }
  }

  /** A blocked file is blocked after every turn, whatever the turn lists and whatever fails in it. */
  lemma {:induction false} BlockedStaysBlocked(w: World, entries: seq<Entry>, name: string)
    requires Blocked(w, name) && NewIds(w.batches.Keys, entries)
    ensures Blocked(Sweep(w, entries), name)
    decreases |entries|
  {
    if entries != [] {
      var e := entries[0];
      var w' := Attempt(w, Start(e.raw), e.faults, e.newId);
      SweepUnrolls(w, entries, w');
      StartName(e.raw);
      if Basename(e.raw) == name {
        OwnAttempt(w, entries);
        if !Start(e.raw).Idle? {
          BlockedAttempt(w, name, e.faults, e.newId);
        }
      } else {
        FirstAttempt(w, entries, name);
        SameShareSameFile(w, w', name);
      }
      BlockedStaysBlocked(w', entries[1..], name);
    }
  }

  /** Every disposition but a skipped or blocked one takes the file out of /upload. */
  lemma DisposedLeaves(w: World, raw: string, newId: Uuid)
    requires Start(raw) != Idle && !Blocked(w, Basename(raw))
    ensures !Uploaded(Dispose(w, raw, newId), Basename(raw))
  {
    var w' := Dispose(w, raw, newId);
    DisposedFiles(w, raw, newId, Basename(raw), w');
    GoneFromUpload(w.files, Basename(raw));
  }

  lemma GoneFromUpload(files: map<string, Bytes>, name: string)
    ensures UploadPath(name) !in Without(files, UploadPath(name))
    ensures UploadPath(name) in files ==>
      UploadPath(name) !in Without(files, UploadPath(name))[QuarantinePath(name) := files[UploadPath(name)]]
  {
  }

  lemma DisposedFiles(w: World, raw: string, newId: Uuid, name: string, w': World)
    requires w' == Dispose(w, raw, newId) && name == Basename(raw) && !(raw != "" && name == "")
    ensures UploadPath(name) !in w.files ==> w'.files == w.files
    ensures UploadPath(name) in w.files ==>
      w'.files in {Without(w.files, UploadPath(name)),
                   Without(w.files, UploadPath(name))[QuarantinePath(name) := w.files[UploadPath(name)]]}
  {
  }

  lemma SameShareSameFile(w: World, w': World, name: string)
    requires ShareOf(w, name) == ShareOf(w', name)
    ensures Uploaded(w, name) <==> Uploaded(w', name)
    ensures Blocked(w, name) <==> Blocked(w', name)
  {
  }

  /**
   * Without failures, blocked stays blocked and gone stays gone; a name that is listed is one or the other afterwards.
   */
  lemma {:induction false} CleanSweep(w: World, entries: seq<Entry>, name: string)
    requires NewIds(w.batches.Keys, entries) && NoFaults(entries)
    ensures Blocked(w, name) ==> Uploaded(Sweep(w, entries), name)
    ensures !Uploaded(w, name) ==> !Uploaded(Sweep(w, entries), name)
    ensures (exists i :: 0 <= i < |entries| && Start(entries[i].raw) == Sizing(name)) && !Blocked(w, name) ==>
      !Uploaded(Sweep(w, entries), name)
    decreases |entries|
  {
    if entries != [] {
      var e := entries[0];
      var w' := Attempt(w, Start(e.raw), e.faults, e.newId);
      if Basename(e.raw) != name {
        FirstAttempt(w, entries, name);
        SameShareSameFile(w, w', name);
      } else {
        OwnAttempt(w, entries);
        if Start(e.raw) != Idle {
          CleanAttempt(w, e.raw, e.newId);
        }
      }
      CleanSweep(w', entries[1..], name);
      forall i | 0 < i < |entries| ensures entries[1..][i - 1] == entries[i] {}
    }
  }

  /** Progress: after a turn in which no call fails, a listed file is still in /upload if and only if it was blocked. */
  lemma TurnDrains(w: World, entries: seq<Entry>, k: nat)
    requires NewIds(w.batches.Keys, entries) && NoFaults(entries) && k < |entries|
    requires Start(entries[k].raw) != Idle
    ensures var name := Basename(entries[k].raw); Uploaded(Sweep(w, entries), name) <==> Blocked(w, name)
  {
    CleanSweep(w, entries, Basename(entries[k].raw));
  }

  // ---------------------------------------------------------------- how long the worker lives

  /** The loop from a given session state: the stores it leaves, and whether it is still running at the end. */
  function Loop(w: World, connected: bool, turns: seq<Turn>): (World, bool)
    decreases |turns|
  {
    if turns == [] then (w, true)
    else if !connected then (w, false)
    else Loop(TurnEffect(w, turns[0]), ConnectedAfter(connected, turns[0]), turns[1..])
  }

  predicate Unrecovered(t: Turn) {
    t.ListingFailed? && t.reconnect != Ok
  }

  /**
   * The loop catches a failed reconnection but does not survive it: the next listing finds no session and its error
   * is not among those the loop handles. It runs on if and only if no turn but the last ends that way.
   */
  lemma {:induction false} LoopSurvives(w: World, connected: bool, turns: seq<Turn>)
    ensures Loop(w, connected, turns).1 <==>
      turns == [] || (connected && forall i | 0 <= i < |turns| - 1 :: !Unrecovered(turns[i]))
    decreases |turns|
  {
    if turns != [] && connected {
      var t := turns[0];
      LoopSurvives(TurnEffect(w, t), ConnectedAfter(connected, t), turns[1..]);
      forall i | 0 < i < |turns| ensures turns[1..][i - 1] == turns[i] {}
      if |turns| > 1 {
        assert turns[1..] != [];
        if Unrecovered(t) {
          assert !ConnectedAfter(connected, t);
        }
      }
    }
  }

  // ---------------------------------------------------------------- the order of the work

  /** A sweep over two lists is the sweep over the first and then, on what it left, over the second. */
  lemma {:induction false} SweepInOrder(w: World, first: seq<Entry>, second: seq<Entry>)
    ensures Sweep(w, first + second) == Sweep(Sweep(w, first), second)
    decreases |first|
  {
    if first == [] {
      assert first + second == second;
    } else {
      assert (first + second)[0] == first[0] && (first + second)[1..] == first[1..] + second;
      var w' := Attempt(w, Start(first[0].raw), first[0].faults, first[0].newId);
      SweepUnrolls(w, first + second, w');
      SweepUnrolls(w, first, w');
      SweepInOrder(w', first[1..], second);
    }
  }

  /** All that the turns list, in order, up to the turn that leaves no session. */
  function ListedWhileAlive(turns: seq<Turn>): seq<Entry>
    decreases |turns|
  {
    if turns == [] then []
    else
      (if turns[0].Listed? then turns[0].entries else [])
      + (if Unrecovered(turns[0]) then [] else ListedWhileAlive(turns[1..]))
  }

  /** The loop is one long sweep over everything it got to see, in order; failed listings change nothing. */
  lemma {:induction false} LoopIsOneSweep(w: World, turns: seq<Turn>)
    ensures Loop(w, true, turns).0 == Sweep(w, ListedWhileAlive(turns))
    decreases |turns|
  {
    if turns != [] {
      var t := turns[0];
      var now := if t.Listed? then t.entries else [];
      var later := if Unrecovered(t) then [] else ListedWhileAlive(turns[1..]);
      SweepInOrder(w, now, later);
      if !Unrecovered(t) {
        LoopIsOneSweep(TurnEffect(w, t), turns[1..]);
      }
    }
  }
}
