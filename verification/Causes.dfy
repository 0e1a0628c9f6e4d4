/** Why a command ended the way its handle says: over every run of the system, a
    settled handle goes back to the step that settled it, the result, close or drop
    that decided it, and for a result to the report of the job that ran it. */
module Causes {
  import opened Wrappers
  import opened Protocol
  import P = ServerPool
  import opened System
  import opened Frames
  import O = Outcomes

  /** The step that takes the command out of flight, and the settlement it leaves:
      a result is read; its session is reported over by its worker, which means
      cancelled only if someone was closing the session and no error came with the
      report; or its worker is dropped. */
  predicate DecidedAt(m: Moment, rid: ExecId, v: P.Verdict) {
    var s, l := m.before, m.step;
    match v
    case FromResult(r) =>
      && l.Deliver? && l.w in s.conns && s.conns[l.w].up != []
      && s.conns[l.w].up[0] == ResultOf(r) && r.requestId == rid
    case FromClose(cause) =>
      && l.Deliver? && l.w in s.conns && s.conns[l.w].up != [] && s.conns[l.w].up[0].SessionClosed?
      && var f := s.conns[l.w].up[0];
         && f.sessionId in s.pool.sessions && s.pool.sessions[f.sessionId].workerId == l.w
         && rid in s.pool.inflight && s.pool.inflight[rid].sessionId == f.sessionId
         && cause == (if s.pool.sessions[f.sessionId].state == P.Closing && f.error == None
                      then P.CancelledCause else P.WorkerError)
    case FromDrop(oom) =>
      l.TakeDropped? && l.oom == oom && rid in s.pool.inflight && s.pool.inflight[rid].workerId == l.w
  }

  /** The step that settles a running handle, which had no outcome before and has this one since. */
  predicate SettledAt(m: Moment, rid: ExecId, r: P.Runtime) {
    && m.step.SettleHandle? && m.step.rid == rid && rid in m.before.pool.handles
    && (rid, m.step.verdict) in m.before.finalizers
    && var was := m.before.pool.handles[rid].runtime;
       && was.status == P.Running && was.exitCode == None && was.exitSignal == None && !was.cancelled
       && P.Reads(was, m.step.verdict, m.step.now, r)
  }

  ghost predicate DueFrom(past: seq<Moment>, finalizers: multiset<(ExecId, P.Verdict)>) {
    forall rid, v :: (rid, v) in finalizers ==> exists d :: d in past && DecidedAt(d, rid, v)
  }

  ghost predicate Explained(past: seq<Moment>, rid: ExecId, r: P.Runtime) {
    exists d, m :: d in past && m in past && SettledAt(m, rid, r) && DecidedAt(d, rid, m.step.verdict)
  }

  ghost predicate HandlesFrom(past: seq<Moment>, handles: map<ExecId, P.Handle>) {
    forall rid :: rid in handles && handles[rid].runtime.status != P.Running ==>
      Explained(past, rid, handles[rid].runtime)
  }

  // ------------------------------------------------------------ settlements due

  lemma TakeDue(s: Sys, l: Label)
    requires l.TakeDropped?
    ensures forall rid, v :: (rid, v) in Next(s, l).finalizers ==>
              (rid, v) in s.finalizers || DecidedAt(Moment(s, l), rid, v)
  {
    hide Next, Tasks;
    NextAtPool(s, l);
    O.TasksCount(P.OnWorker(s.pool.inflight, l.w), P.FromDrop(l.oom));
  }

  lemma ClosedDue(s: Sys, l: Label)
    requires l.Deliver? && l.w in s.conns && s.conns[l.w].up != [] && s.conns[l.w].up[0].SessionClosed?
    ensures forall rid, v :: (rid, v) in Next(s, l).finalizers ==>
              (rid, v) in s.finalizers || DecidedAt(Moment(s, l), rid, v)
  {
    hide Next, Tasks;
    NextAtPool(s, l);
    var f := s.conns[l.w].up[0];
    var closed := P.SessionClosed(s.pool, l.w, f.sessionId, f.error, f.reusable, l.now);
    if closed.Some? {
      O.TasksCount(closed.value.pending, P.FromClose(closed.value.cause));
    }
  }

  lemma ReadDue(s: Sys, l: Label)
    requires l.Deliver?
    ensures forall rid, v :: (rid, v) in Next(s, l).finalizers ==>
              (rid, v) in s.finalizers || DecidedAt(Moment(s, l), rid, v)
  {
    hide Next;
    if l.w in s.conns && s.conns[l.w].up != [] && s.conns[l.w].up[0].SessionClosed? {
      ClosedDue(s, l);
    } else {
      NextAtPool(s, l);
      hide P.SessionReady, P.CompleteRequest, P.SessionClosed, Tasks;
    }
  }

  lemma SameDue(s: Sys, l: Label)
    requires !l.Deliver? && !l.TakeDropped?
    ensures forall rid, v :: (rid, v) in Next(s, l).finalizers ==> (rid, v) in s.finalizers
  {
    hide Next, DoRegister, DoSettle, PoolStep;
    if l.RegisterCommand? {
      NextAtPool(s, l);
      O.RegisterShape(s, l.id, l.now);
    } else if l.SettleHandle? {
      SettleDue(s, l);
    } else if PoolOnly(l) {
      PoolOnlyStep(s, l);
    } else {
      O.NoCommandLabel(s, l);
    }
  }

  lemma SettleDue(s: Sys, l: Label)
    requires l.SettleHandle?
    ensures forall rid, v :: (rid, v) in Next(s, l).finalizers ==> (rid, v) in s.finalizers
  {
    hide Next, P.Finalize;
    NextAtPool(s, l);
  }

  lemma DueStep(past: seq<Moment>, s: Sys, l: Label)
    requires DueFrom(past, s.finalizers)
    ensures DueFrom(past + [Moment(s, l)], Next(s, l).finalizers)
  {
    hide Next, DecidedAt;
    var m := Moment(s, l);
    if l.TakeDropped? {
      TakeDue(s, l);
    } else if l.Deliver? {
      ReadDue(s, l);
    } else {
      SameDue(s, l);
    }
    forall rid, v | (rid, v) in Next(s, l).finalizers ensures exists d :: d in past + [m] && DecidedAt(d, rid, v) {
      if (rid, v) in s.finalizers {
        var d :| d in past && DecidedAt(d, rid, v);
        assert d in past + [m];
      } else {
        assert m in past + [m];
      }
    }
  }

  // ------------------------------------------------------------ settled handles

  lemma StillExplained(past: seq<Moment>, m: Moment, rid: ExecId, r: P.Runtime, r': P.Runtime)
    requires Explained(past, rid, r) && O.OutcomeOf(r') == O.OutcomeOf(r)
    ensures Explained(past + [m], rid, r')
  {
    hide DecidedAt;
    var d, n :| d in past && n in past && SettledAt(n, rid, r) && DecidedAt(d, rid, n.step.verdict);
    assert d in past + [m] && n in past + [m] && SettledAt(n, rid, r');
  }

  lemma NowExplained(past: seq<Moment>, s: Sys, l: Label)
    requires O.HandlesInv(s) && DueFrom(past, s.finalizers)
    requires l.SettleHandle? && (l.rid, l.verdict) in s.finalizers && l.rid in s.pool.handles
    ensures Explained(past + [Moment(s, l)], l.rid, P.Settle(s.pool.handles[l.rid].runtime, l.verdict, l.now))
  {
    hide DecidedAt, P.Settle, P.Reads;
    var m, was := Moment(s, l), s.pool.handles[l.rid].runtime;
    O.DueRuns(s, l.rid, l.verdict);
    assert O.Coherent(O.OutcomeOf(was));
    P.SettleReads(was, l.verdict, l.now);
    var d :| d in past && DecidedAt(d, l.rid, l.verdict);
    assert d in past + [m] && m in past + [m];
    assert SettledAt(m, l.rid, P.Settle(was, l.verdict, l.now));
  }

  lemma HandlesStep(past: seq<Moment>, s: Sys, l: Label)
    requires O.HandlesInv(s) && DueFrom(past, s.finalizers) && HandlesFrom(past, s.pool.handles)
    ensures HandlesFrom(past + [Moment(s, l)], Next(s, l).pool.handles)
  {
    hide Next, Explained, P.Settle, O.HandlesInv, DueFrom;
    var m := Moment(s, l);
    HandleStep(s, l);
    forall rid | rid in Next(s, l).pool.handles && Next(s, l).pool.handles[rid].runtime.status != P.Running
      ensures Explained(past + [m], rid, Next(s, l).pool.handles[rid].runtime)
    {
      var r' := Next(s, l).pool.handles[rid].runtime;
      assert HandleMoved(s, l, rid, Next(s, l).pool.handles[rid]);
      var r := s.pool.handles[rid].runtime;
      if O.OutcomeOf(r') == O.OutcomeOf(r) {
        StillExplained(past, m, rid, r, r');
      } else {
        NowExplained(past, s, l);
      }
    }
  }

  lemma {:induction false} CausesHere(labels: seq<Label>)
    ensures DueFrom(Past(labels), Exec(INIT, labels).finalizers)
    ensures HandlesFrom(Past(labels), Exec(INIT, labels).pool.handles)
    decreases |labels|
  {
    hide Next, DueFrom, HandlesFrom, Past, O.HandlesInv;
    if labels == [] {
      InitCauses();
    } else {
      var before := labels[..|labels| - 1];
      CausesHere(before);
      O.HandlesHere(before);
      PastGrows(labels);
      LastStep(labels);
      DueStep(Past(before), Exec(INIT, before), labels[|labels| - 1]);
      HandlesStep(Past(before), Exec(INIT, before), labels[|labels| - 1]);
    }
  }

  lemma InitCauses()
    ensures DueFrom(Past([]), Exec(INIT, []).finalizers) && HandlesFrom(Past([]), Exec(INIT, []).pool.handles)
  {
  }

  // ------------------------------------------------------------------- theorems

  /** In every run, what a client reads on a command that is no longer running was
      written once, by a step that settled it from a result, a close or a drop, and
      reads just as that says; and that result was read from the command's worker,
      that close or drop was of the command's session or worker. */
  lemma CommandOutcome(labels: seq<Label>, rid: ExecId)
    ensures var s := Exec(INIT, labels);
            rid in s.pool.handles && s.pool.handles[rid].runtime.status != P.Running ==>
              exists d, m ::
                && d in Past(labels) && m in Past(labels)
                && SettledAt(m, rid, s.pool.handles[rid].runtime) && DecidedAt(d, rid, m.step.verdict)
  {
    hide Exec, Past, SettledAt, DecidedAt;
    CausesHere(labels);
    var s := Exec(INIT, labels);
    if rid in s.pool.handles && s.pool.handles[rid].runtime.status != P.Running {
      assert Explained(Past(labels), rid, s.pool.handles[rid].runtime);
    }
  }

  /** The step in which a job reported this command with just this exit. */
  ghost predicate JobEnded(m: Moment, rid: ExecId, r: P.Runtime) {
    && m.step.Work? && m.step.e.JobResult? && m.step.e.result.requestId == rid
    && m.step.w in m.before.conns && m.before.conns[m.step.w].worker.Serving?
    && rid in m.before.conns[m.step.w].worker.sched.running
    && r.exitCode == m.step.e.result.exitCode && r.exitSignal == m.step.e.result.exitSignal
    && r.cancelled == m.step.e.result.cancelled
  }

  /** So a command with an exit code, and any that is Completed, was run by a job
      of a worker that reported just that exit. */
  lemma ExitsAreReports(labels: seq<Label>, rid: ExecId)
    ensures var s := Exec(INIT, labels);
            rid in s.pool.handles
            && (s.pool.handles[rid].runtime.exitCode != None || s.pool.handles[rid].runtime.status == P.Completed)
            ==> exists j :: j in Past(labels) && JobEnded(j, rid, s.pool.handles[rid].runtime)
  {
    hide Exec, Past, JobEnded, O.HandlesInv;
    var s := Exec(INIT, labels);
    if rid in s.pool.handles
       && (s.pool.handles[rid].runtime.exitCode != None || s.pool.handles[rid].runtime.status == P.Completed)
    {
      O.HandlesHere(labels);
      HasEnded(s, rid);
      CommandOutcome(labels, rid);
      var r := s.pool.handles[rid].runtime;
      var d, m :| d in Past(labels) && m in Past(labels) && SettledAt(m, rid, r) && DecidedAt(d, rid, m.step.verdict);
      FromReport(labels, d, m, rid, r);
    }
  }

  lemma HasEnded(s: Sys, rid: ExecId)
    requires O.HandlesInv(s) && rid in s.pool.handles
    requires s.pool.handles[rid].runtime.exitCode != None || s.pool.handles[rid].runtime.status == P.Completed
    ensures s.pool.handles[rid].runtime.status != P.Running
  {
    assert O.Coherent(O.OutcomeOf(s.pool.handles[rid].runtime));
  }

  lemma FromReport(labels: seq<Label>, d: Moment, m: Moment, rid: ExecId, r: P.Runtime)
    requires d in Past(labels) && SettledAt(m, rid, r) && DecidedAt(d, rid, m.step.verdict)
    requires r.exitCode != None || r.status == P.Completed
    ensures exists j :: j in Past(labels) && JobEnded(j, rid, r)
  {
    hide Exec, Past, JobReported, JobEnded;
    assert m.step.verdict.FromResult?;
    var result := m.step.verdict.result;
    assert !OwnAnswer(result);
    var w := d.step.w;
    assert d.before.conns[w].up[0] in d.before.conns[w].up;
    hide SettledAt, DecidedAt, OwnAnswer;
    var k := PastIs(labels, d);
    ResultsAreReports(labels[..k], w, result);
    var j :| j in Past(labels[..k]) && JobReported(j, w, result);
    PastWithin(labels, k, j);
    ReportEnded(j, w, result, m, rid, r);
  }

  lemma ReportEnded(j: Moment, w: WorkerId, result: ResultFrame, m: Moment, rid: ExecId, r: P.Runtime)
    requires JobReported(j, w, result) && m.step.SettleHandle? && m.step.verdict == P.FromResult(result)
    requires SettledAt(m, rid, r) && result.requestId == rid
    ensures JobEnded(j, rid, r)
  {
  }
}
