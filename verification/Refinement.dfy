/**
 * The sequential forms are runs of the interleaved system: a whole attempt, a whole turn of the poll loop, a whole
 * inference job and a whole request each take a reachable state to a reachable state, so every theorem of Safety
 * holds of what the workers and the API leave behind.
 */
module Refinement {
  import opened Prelude
  import opened Keys
  import opened World
  import opened System
  import opened Safety
  import I = Ingest
  import P = Polling
  import N = Inference
  import D = Demo
  import Q = Requests
  import H = Handling

  ghost predicate Leads(c: Classifier, s: State, s': State) {
    exists acts :: Legal(c, s, acts) && s' == Exec(c, s, acts)
  }

  lemma Stay(c: Classifier, s: State)
    ensures Leads(c, s, s)
  {
    assert Legal(c, s, []) && s == Exec(c, s, []);
  }

  lemma Step(c: Classifier, s: State, a: Action, s1: State, s2: State)
    requires Enabled(s, a) && s1 == Apply(c, s, a) && Leads(c, s1, s2)
    ensures Leads(c, s, s2)
  {
    var acts :| Legal(c, s1, acts) && s2 == Exec(c, s1, acts);
    var all := [a] + acts;
    assert all[0] == a && all[1..] == acts;
    assert Legal(c, s, all) && s2 == Exec(c, s, all);
  }

  lemma {:induction false} Chain(c: Classifier, s: State, acts: seq<Action>, s1: State, s2: State)
    requires Legal(c, s, acts) && s1 == Exec(c, s, acts) && Leads(c, s1, s2)
    ensures Leads(c, s, s2)
    decreases |acts|
  {
    if acts != [] {
      var mid := Apply(c, s, acts[0]);
      Chain(c, mid, acts[1..], s1, s2);
      Step(c, s, acts[0], mid, s2);
    }
  }

  lemma Compose(c: Classifier, s: State, s1: State, s2: State)
    requires Leads(c, s, s1) && Leads(c, s1, s2)
    ensures Leads(c, s, s2)
  {
    var acts :| Legal(c, s, acts) && s1 == Exec(c, s, acts);
    Chain(c, s, acts, s1, s2);
  }

  lemma ReachOn(c: Classifier, s: State, s': State)
    requires Reachable(c, s) && Leads(c, s, s')
    ensures Reachable(c, s')
  {
    var users, acts :| Legal(c, Init(users), acts) && s == Exec(c, Init(users), acts);
    Chain(c, Init(users), acts, s, s');
    assert Leads(c, Init(users), s');
  }

  // ---------------------------------------------------------------- ingest

  lemma {:induction false} AttemptLeads(c: Classifier, s: State, f: I.Faults, newId: Uuid) returns (s': State)
    requires I.Remaining(s.ingest) >= 4 ==> newId !in s.w.batches
    ensures Leads(c, s, s') && s'.w == I.Attempt(s.w, s.ingest, f, newId) && s'.ingest.Idle?
    ensures s'.requests == s.requests
    decreases I.Remaining(s.ingest)
  {
    if s.ingest.Idle? {
      Stay(c, s);
      s' := s;
    } else {
      var o := I.FaultAt(f, s.ingest);
      var a := IngestCall(o, newId);
      var s1 := Apply(c, s, a);
      P.StepKeepsIdFree(s.w, s.ingest, o, newId, s1.w, s1.ingest);
      s' := AttemptLeads(c, s1, f, newId);
      Step(c, s, a, s1, s');
    }
  }

  lemma ProcessOneLeads(c: Classifier, s: State, raw: string, f: I.Faults, newId: Uuid) returns (s': State)
    requires s.ingest.Idle? && newId !in s.w.batches
    ensures Leads(c, s, s') && s'.w == I.Attempt(s.w, I.Start(raw), f, newId) && s'.ingest.Idle?
    ensures s'.requests == s.requests
  {
    var s1 := Apply(c, s, Begin(raw));
    s' := AttemptLeads(c, s1, f, newId);
    Step(c, s, Begin(raw), s1, s');
  }

  lemma {:induction false} SweepLeads(c: Classifier, s: State, entries: seq<P.Entry>) returns (s': State)
    requires s.ingest.Idle? && P.NewIds(s.w.batches.Keys, entries)
    ensures Leads(c, s, s') && s'.w == P.Sweep(s.w, entries) && s'.ingest.Idle?
    decreases |entries|
  {
    if entries == [] {
      Stay(c, s);
      s' := s;
    } else {
      var e := entries[0];
      P.OwnAttempt(s.w, entries);
      var s1 := ProcessOneLeads(c, s, e.raw, e.faults, e.newId);
      P.SweepUnrolls(s.w, entries, s1.w);
      s' := SweepLeads(c, s1, entries[1..]);
      Compose(c, s, s1, s');
    }
  }

  /** A turn of the poll loop keeps to the reachable states, whatever it lists and whatever fails in it. */
  lemma TurnStaysReachable(c: Classifier, s: State, t: P.Turn) returns (s': State)
    requires Reachable(c, s) && s.ingest.Idle? && (t.Listed? ==> P.NewIds(s.w.batches.Keys, t.entries))
    ensures Reachable(c, s') && s'.w == P.TurnEffect(s.w, t) && s'.ingest.Idle?
  {
    if t.Listed? {
      s' := SweepLeads(c, s, t.entries);
      ReachOn(c, s, s');
    } else {
      s' := s;
    }
  }

  // ---------------------------------------------------------------- inference

  lemma {:induction false} RunLeads(c: Classifier, s: State, r: nat, f: N.RunFaults) returns (s': State)
    requires r < |s.runs| && s.runs[r].job < |s.w.jobs|
    ensures Leads(c, s, s') && r < |s'.runs|
    ensures (s'.w, s'.runs[r].pc) == N.Run(c, s.w, s.w.jobs[s.runs[r].job], s.runs[r].pc, f)
    ensures s'.requests == s.requests
    decreases N.RunRank(s.runs[r].pc)
  {
    var pc, job := s.runs[r].pc, s.w.jobs[s.runs[r].job];
    if N.RunRank(pc) == 0 {
      Stay(c, s);
      s' := s;
    } else {
      var o := N.RunFaultAt(f, pc);
      var s1 := Apply(c, s, RunCall(r, o));
      N.RunUnrolls(c, s.w, job, pc, f, s1.w, s1.runs[r].pc);
      RunCallEffect(c, s.w, job, pc, o);
      s' := RunLeads(c, s1, r, f);
      Step(c, s, RunCall(r, o), s1, s');
    }
  }

  /** Taking the next job off the queue and running it to its end, or to its failure. */
  lemma JobStaysReachable(c: Classifier, s: State, f: N.RunFaults) returns (s': State)
    requires Reachable(c, s) && s.w.head < |s.w.jobs|
    ensures Reachable(c, s')
    ensures s'.w == N.Run(c, s.w.(head := s.w.head + 1), s.w.jobs[s.w.head], N.Downloading, f).0
  {
    s' := TakenJobLeads(c, s, f);
    ReachOn(c, s, s');
  }

  lemma TakenJobLeads(c: Classifier, s: State, f: N.RunFaults) returns (s': State)
    requires s.w.head < |s.w.jobs|
    ensures Leads(c, s, s')
    ensures s'.w == N.Run(c, s.w.(head := s.w.head + 1), s.w.jobs[s.w.head], N.Downloading, f).0
    ensures s'.requests == s.requests
  {
    var s1 := Apply(c, s, Dequeue);
    assert s1.runs[|s.runs|] == RunRecord(s.w.head, N.Downloading, None);
    s' := RunLeads(c, s1, |s.runs|, f);
    Step(c, s, Dequeue, s1, s');
  }

  // ---------------------------------------------------------------- the demo endpoint

  /** A whole call of the demo endpoint. */
  lemma DemoStaysReachable(c: Classifier, s: State, tag: string, image: Bytes, user: Uuid,
                           upload: Outcome, save: Outcome, enqueue: Outcome, newId: Uuid) returns (s': State)
    requires Reachable(c, s) && IsDemoTag(tag) && newId !in s.w.batches
    ensures Reachable(c, s')
    ensures var (w1, pc1) := D.DemoStep(s.w, D.Uploading(DemoName(tag), image, user), upload, newId);
      var (w2, pc2) := D.DemoStep(w1, pc1, save, newId);
      s'.w == D.DemoStep(w2, pc2, enqueue, newId).0
  {
    var i := |s.demos|;
    var start := Apply(c, s, StartDemo(tag, image, user));
    var s1 := Apply(c, start, DemoCall(i, upload, newId));
    var s2 := Apply(c, s1, DemoCall(i, save, newId));
    s' := Apply(c, s2, DemoCall(i, enqueue, newId));
    Stay(c, s');
    Step(c, s2, DemoCall(i, enqueue, newId), s', s');
    Step(c, s1, DemoCall(i, save, newId), s2, s');
    Step(c, start, DemoCall(i, upload, newId), s1, s');
    Step(c, s, StartDemo(tag, image, user), start, s');
    ReachOn(c, s, s');
  }

  // ---------------------------------------------------------------- requests

  lemma {:induction false} HandleLeads(c: Classifier, s: State, q: nat, f: H.CallFaults) returns (s': State)
    requires q < |s.requests|
    ensures Leads(c, s, s') && q < |s'.requests| && (s'.w, s'.requests[q]) == H.Handle(s.w, s.requests[q], f)
    ensures |s'.requests| == |s.requests|
    ensures forall i | 0 <= i < |s.requests| && i != q :: s'.requests[i] == s.requests[i]
    decreases Q.CallsLeft(s.requests[q].pc)
  {
    var r := s.requests[q];
    if r.pc.Closed? {
      Stay(c, s);
      s' := s;
    } else {
      var o := H.CallFaultAt(f, r.pc);
      var s1 := Apply(c, s, RequestCall(q, o));
      H.HandleUnrolls(s.w, r, f);
      s' := HandleLeads(c, s1, q, f);
      Step(c, s, RequestCall(q, o), s1, s');
    }
  }

  lemma RequestStaysReachable(c: Classifier, s: State, kind: Q.Kind, actor: Uuid, f: H.CallFaults) returns (s': State)
    requires Reachable(c, s)
    ensures Reachable(c, s') && s'.w == H.Handle(s.w, Q.Request(kind, actor, Q.Guarding), f).0
  {
    var s1 := Apply(c, s, Submit(kind, actor));
    s' := HandleLeads(c, s1, |s.requests|, f);
    Step(c, s, Submit(kind, actor), s1, s');
    ReachOn(c, s, s');
  }
}
