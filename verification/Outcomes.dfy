/** How commands end: every outcome is written once, and none is missing. */
module Outcomes {
  import opened Wrappers
  import opened Protocol
  import S = Scheduler
  import P = ServerPool
  import opened Link
  import opened System
  import opened Composition
  import G = Guarantees

  // ------------------------------------------------------------ command outcomes

  /** What a client reads to learn how a command ended. */
  datatype Outcome = Outcome(
    status: P.HandleStatus,
    finishedAt: Option<int>,
    exitCode: Option<int>,
    exitSignal: Option<int>,
    exitCause: Option<P.ExitCause>,
    cancelled: bool)

  function OutcomeOf(r: P.Runtime): Outcome {
    Outcome(r.status, r.finishedAt, r.exitCode, r.exitSignal, r.exitCause, r.cancelled)
  }

  /** Status, cause and finish time agree, and a running command has no outcome. */
  predicate Coherent(o: Outcome) {
    && (o.status.Running? <==> o.finishedAt.None?)
    && (o.status.Running? <==> o.exitCause.None?)
    && (o.status.Running? ==> o.exitCode.None? && o.exitSignal.None? && !o.cancelled)
    && (o.status.Completed? <==> o.exitCause == Some(P.Normal))
    && (o.status.Oomkilled? <==> o.exitCause == Some(P.OomContainer))
    && (o.status.Completed? ==> o.exitSignal.None? && !o.cancelled)
    && (o.status.Oomkilled? ==> o.exitSignal == Some(P.SIGKILL))
    && (o.exitCause == Some(P.CancelledCause) ==> o.cancelled)
    && (o.exitCause == Some(P.Signal) ==> o.exitSignal.Some? && !o.cancelled)
  }

  predicate VerdictOk(rid: ExecId, v: P.Verdict) {
    && (v.FromResult? ==> v.result.requestId == rid)
    && (v.FromClose? ==> v.cause.CancelledCause? || v.cause.WorkerError?)
  }

  predicate IsRunning(p: P.Pool, rid: ExecId) { rid in p.handles && p.handles[rid].runtime.status.Running? }

  ghost predicate Finalizing(finalizers: multiset<(ExecId, P.Verdict)>, rid: ExecId) {
    exists v :: (rid, v) in finalizers
  }

  /** Every command in flight runs; every settlement due is the only one due for
      its command, which runs and is no longer in flight; nothing else runs. */
  ghost predicate Accounted(p: P.Pool, finalizers: multiset<(ExecId, P.Verdict)>) {
    && (forall rid :: rid in p.inflight ==> IsRunning(p, rid))
    && (forall rid, v :: (rid, v) in finalizers ==>
          && IsRunning(p, rid) && rid !in p.inflight
          && finalizers[(rid, v)] == 1 && VerdictOk(rid, v))
    && (forall rid, v, u :: (rid, v) in finalizers && (rid, u) in finalizers ==> v == u)
    && (forall rid :: IsRunning(p, rid) ==> rid in p.inflight || Finalizing(finalizers, rid))
  }

  ghost predicate HandlesInv(s: Sys) {
    && s.pool.handles.Keys <= s.usedCommands
    && (forall rid :: rid in s.pool.handles ==> Coherent(OutcomeOf(s.pool.handles[rid].runtime)))
    && Accounted(s.pool, s.finalizers)
  }

  /** A handle handed out before the step is the same handle after it, and keeps its outcome once it has one. */
  ghost predicate Settled(s: Sys, s': Sys) {
    && s.usedCommands <= s'.usedCommands
    && (forall rid :: rid in s.usedCommands && rid in s'.pool.handles ==>
          && rid in s.pool.handles
          && s'.pool.handles[rid].sessionId == s.pool.handles[rid].sessionId
          && s'.pool.handles[rid].workerId == s.pool.handles[rid].workerId
          && (!IsRunning(s.pool, rid) ==>
                OutcomeOf(s'.pool.handles[rid].runtime) == OutcomeOf(s.pool.handles[rid].runtime)))
    && (forall rid :: rid in s.usedCommands && rid in s'.pool.inflight ==> rid in s.pool.inflight)
  }

  /** A step that neither starts nor ends a command. */
  predicate NoCommand(s: Sys, s': Sys) {
    && s'.pool.handles == s.pool.handles && s'.pool.inflight == s.pool.inflight
    && s'.finalizers == s.finalizers && s'.usedCommands == s.usedCommands
  }

  lemma NoCommandInv(s: Sys, s': Sys)
    requires HandlesInv(s) && NoCommand(s, s')
    ensures HandlesInv(s') && Settled(s, s')
  {
  }

  lemma NewAccounted(p: P.Pool, p': P.Pool, finalizers: multiset<(ExecId, P.Verdict)>, rid: ExecId, h: P.Handle,
                     pending: P.Pending)
    requires Accounted(p, finalizers) && rid !in p.handles && h.runtime == P.FRESH
    requires p'.handles == p.handles[rid := h] && p'.inflight == p.inflight[rid := pending]
    ensures Accounted(p', finalizers)
  {
    assert forall r :: IsRunning(p', r) <==> IsRunning(p, r) || r == rid;
  }

  lemma RegisterShape(s: Sys, id: SessionId, now: int)
    ensures var s' := DoRegister(s, id, now);
            || NoCommand(s, s')
            || (&& id in s.holders && s.holders[id].Submitting? && s.holders[id].execute.requestId !in s.usedCommands
                && var h := s.holders[id];
                   var rid := h.execute.requestId;
                   && s'.pool.handles == s.pool.handles[rid := P.Handle(id, h.worker, P.FRESH)]
                   && s'.pool.inflight == s.pool.inflight[rid := P.Pending(h.worker, h.sink, id, h.mode)]
                   && s'.usedCommands == s.usedCommands + {rid} && s'.finalizers == s.finalizers)
  {
  }

  lemma RegisterHandles(s: Sys, id: SessionId, now: int)
    requires HandlesInv(s)
    ensures HandlesInv(DoRegister(s, id, now)) && Settled(s, DoRegister(s, id, now))
  {
    hide Accounted, DoRegister;
    RegisterShape(s, id, now);
    var s' := DoRegister(s, id, now);
    if !NoCommand(s, s') {
      var rid := s.holders[id].execute.requestId;
      NewAccounted(s.pool, s'.pool, s.finalizers, rid, s'.pool.handles[rid], s'.pool.inflight[rid]);
    } else {
      NoCommandInv(s, s');
    }
  }

  lemma SettleCoherent(r: P.Runtime, rid: ExecId, v: P.Verdict, now: int)
    requires Coherent(OutcomeOf(r)) && VerdictOk(rid, v)
    ensures Coherent(OutcomeOf(P.Settle(r, v, now)))
    ensures !P.Settle(r, v, now).status.Running?
    ensures !r.status.Running? ==> P.Settle(r, v, now) == r
  {
  }

  lemma SettledAccounted(p: P.Pool, p': P.Pool, finalizers: multiset<(ExecId, P.Verdict)>, rid: ExecId, v: P.Verdict)
    requires Accounted(p, finalizers) && (rid, v) in finalizers
    requires p'.inflight == p.inflight && rid in p.handles && rid in p'.handles
    requires p'.handles == p.handles[rid := p'.handles[rid]]
    requires !p'.handles[rid].runtime.status.Running?
    ensures Accounted(p', finalizers - multiset{(rid, v)})
  {
    var finalizers' := finalizers - multiset{(rid, v)};
    assert forall r :: IsRunning(p', r) <==> IsRunning(p, r) && r != rid;
    forall r | IsRunning(p', r) && r !in p.inflight ensures Finalizing(finalizers', r) {
      var u :| (r, u) in finalizers;
      assert (r, u) in finalizers';
    }
  }

  lemma SettleHandles(s: Sys, rid: ExecId, verdict: P.Verdict, now: int)
    requires HandlesInv(s)
    ensures HandlesInv(DoSettle(s, rid, verdict, now)) && Settled(s, DoSettle(s, rid, verdict, now))
  {
    hide P.Settle, Coherent, Accounted;
    var s' := DoSettle(s, rid, verdict, now);
    if (rid, verdict) in s.finalizers {
      DueRuns(s, rid, verdict);
      SettleCoherent(s.pool.handles[rid].runtime, rid, verdict, now);
      SettledAccounted(s.pool, s'.pool, s.finalizers, rid, verdict);
    }
  }

  lemma DueRuns(s: Sys, rid: ExecId, verdict: P.Verdict)
    requires HandlesInv(s) && (rid, verdict) in s.finalizers
    ensures IsRunning(s.pool, rid) && VerdictOk(rid, verdict)
  {
  }

  lemma FlagHandles(s: Sys, s': Sys, rid: ExecId)
    requires HandlesInv(s) && rid in s.pool.handles
    requires rid in s'.pool.handles && s'.pool.handles == s.pool.handles[rid := s'.pool.handles[rid]]
    requires s'.pool.handles[rid] == s.pool.handles[rid].(runtime := s'.pool.handles[rid].runtime)
    requires OutcomeOf(s'.pool.handles[rid].runtime) == OutcomeOf(s.pool.handles[rid].runtime)
    requires s'.pool.inflight == s.pool.inflight && s'.finalizers == s.finalizers && s'.usedCommands == s.usedCommands
    ensures HandlesInv(s') && Settled(s, s')
  {
    hide Coherent;
    assert forall r :: IsRunning(s'.pool, r) <==> IsRunning(s.pool, r);
  }

  lemma PurgedAccounted(p: P.Pool, finalizers: multiset<(ExecId, P.Verdict)>, rid: ExecId)
    requires Accounted(p, finalizers) && !IsRunning(p, rid)
    ensures Accounted(P.Purge(p, rid), finalizers)
  {
    assert forall r :: IsRunning(P.Purge(p, rid), r) <==> IsRunning(p, r);
  }

  lemma PurgeHandles(s: Sys, l: Label)
    requires HandlesInv(s) && l.PurgeHandle?
    ensures HandlesInv(Next(s, l)) && Settled(s, Next(s, l))
  {
    hide Accounted, Coherent, Next;
    PoolOnlyStep(s, l);
    if !IsRunning(s.pool, l.rid) {
      PurgedAccounted(s.pool, s.finalizers, l.rid);
    }
  }

  /** Commands taken out of flight, with one settlement due for each. */
  lemma TakenAccounted(p: P.Pool, p': P.Pool, finalizers: multiset<(ExecId, P.Verdict)>, gone: set<ExecId>,
                       v: P.Verdict)
    requires Accounted(p, finalizers) && gone <= p.inflight.Keys
    requires p'.inflight == p.inflight - gone && p'.handles == p.handles
    requires forall rid :: rid in gone ==> VerdictOk(rid, v)
    ensures Accounted(p', finalizers + Tasks(gone, v))
  {
    var finalizers' := finalizers + Tasks(gone, v);
    TasksCount(gone, v);
    assert forall r :: IsRunning(p', r) <==> IsRunning(p, r);
    forall r | IsRunning(p', r) ensures r in p'.inflight || Finalizing(finalizers', r) {
      if r in gone {
        assert (r, v) in finalizers';
      } else if r !in p.inflight {
        var u :| (r, u) in finalizers;
        assert (r, u) in finalizers';
      }
    }
  }

  lemma TasksCount(gone: set<ExecId>, v: P.Verdict)
    ensures forall r, u :: Tasks(gone, v)[(r, u)] == if r in gone && u == v then 1 else 0
  {
  }

  lemma OneTask(rid: ExecId, v: P.Verdict)
    ensures Tasks({rid}, v) == multiset{(rid, v)}
  {
    assert (set r | r in {rid} :: (r, v)) == {(rid, v)};
  }

  lemma TakeHandles(s: Sys, w: WorkerId, oom: bool)
    requires HandlesInv(s)
    ensures HandlesInv(DoTake(s, w, oom)) && Settled(s, DoTake(s, w, oom))
  {
    hide Coherent, Accounted;
    TakenAccounted(s.pool, DoTake(s, w, oom).pool, s.finalizers, P.OnWorker(s.pool.inflight, w), P.FromDrop(oom));
  }

  lemma GoneSettled(s: Sys, s': Sys, gone: set<ExecId>, v: P.Verdict)
    requires HandlesInv(s) && gone <= s.pool.inflight.Keys && (forall rid :: rid in gone ==> VerdictOk(rid, v))
    requires s'.pool.inflight == s.pool.inflight - gone && s'.pool.handles == s.pool.handles
    requires s'.finalizers == s.finalizers + Tasks(gone, v) && s'.usedCommands == s.usedCommands
    ensures HandlesInv(s') && Settled(s, s')
  {
    hide Coherent, Accounted;
    TakenAccounted(s.pool, s'.pool, s.finalizers, gone, v);
  }

  lemma ResultRead(s: Sys, w: WorkerId, now: int)
    requires w in s.conns && s.conns[w].up != [] && s.conns[w].up[0].ResultOf?
    ensures var s', r := DoDeliver(s, w, now), s.conns[w].up[0].result;
            && s'.pool.inflight == s.pool.inflight - {r.requestId} && s'.pool.handles == s.pool.handles
            && s'.usedCommands == s.usedCommands
            && (r.requestId in s.pool.handles ==>
                  s'.finalizers == s.finalizers + multiset{(r.requestId, P.FromResult(r))})
  {
    hide P.CompleteRequest;
    var rid := s.conns[w].up[0].result.requestId;
    CompleteShape(s.pool, rid, now);
  }

  lemma ResultHandles(s: Sys, w: WorkerId, now: int)
    requires HandlesInv(s) && SysInv(s) && w in s.conns && s.conns[w].up != [] && s.conns[w].up[0].ResultOf?
    ensures HandlesInv(DoDeliver(s, w, now)) && Settled(s, DoDeliver(s, w, now))
  {
    hide Coherent, SysInv, Tasks, Settled, DoDeliver, HandlesInv;
    var r := s.conns[w].up[0].result;
    ResultInFlight(s, w);
    OneTask(r.requestId, P.FromResult(r));
    ResultRuns(s, r.requestId);
    ResultRead(s, w, now);
    GoneSettled(s, DoDeliver(s, w, now), {r.requestId}, P.FromResult(r));
  }

  lemma ClosedHandles(s: Sys, w: WorkerId, now: int)
    requires HandlesInv(s) && w in s.conns && s.conns[w].up != [] && s.conns[w].up[0].SessionClosed?
    ensures HandlesInv(DoDeliver(s, w, now)) && Settled(s, DoDeliver(s, w, now))
  {
    hide HandlesInv, Tasks, Settled;
    var s', f := DoDeliver(s, w, now), s.conns[w].up[0];
    var closed := P.SessionClosed(s.pool, w, f.sessionId, f.error, f.reusable, now);
    if closed.Some? {
      GoneSettled(s, s', closed.value.pending, P.FromClose(closed.value.cause));
    } else {
      NoCommandInv(s, s');
    }
  }

  lemma DeliverHandles(s: Sys, w: WorkerId, now: int)
    requires HandlesInv(s) && SysInv(s)
    ensures HandlesInv(DoDeliver(s, w, now)) && Settled(s, DoDeliver(s, w, now))
  {
    hide HandlesInv, SysInv, Settled;
    if w !in s.conns || s.conns[w].up == [] {
      NoChange(s);
    } else if s.conns[w].up[0].ResultOf? {
      ResultHandles(s, w, now);
    } else if s.conns[w].up[0].SessionClosed? {
      ClosedHandles(s, w, now);
    } else {
      NoCommandInv(s, DoDeliver(s, w, now));
    }
  }

  lemma ResultRuns(s: Sys, rid: ExecId)
    requires HandlesInv(s) && rid in s.pool.inflight
    ensures rid in s.pool.handles
  {
  }

  /** The result a worker's channel delivers next is that of a command in flight for its session. */
  lemma ResultInFlight(s: Sys, w: WorkerId)
    requires SysInv(s) && w in s.conns && s.conns[w].up != [] && s.conns[w].up[0].ResultOf?
    ensures s.conns[w].up[0].result.requestId in s.pool.inflight
  {
    hide ConnInv, P.PoolInv, BooksInv;
    DeliverResultInv(SliceOf(s, w, s.conns[w].sink), s.conns[w], s.conns[w].up[0].result.requestId);
    InSlice(s, w, s.conns[w].sink, s.conns[w].up[0].result.requestId);
  }

  lemma HandleStep(s: Sys, l: Label)
    requires HandlesInv(s) && SysInv(s)
    ensures HandlesInv(Next(s, l)) && Settled(s, Next(s, l))
  {
    hide HandlesInv, SysInv, Settled, NoCommand, Next, DoRegister, DoSettle, DoTake, DoDeliver;
    NextAtPool(s, l);
    match l
    case RegisterCommand(id, now) => RegisterHandles(s, id, now);
    case SettleHandle(rid, verdict, now) => SettleHandles(s, rid, verdict, now);
    case PurgeHandle(_) => PurgeHandles(s, l);
    case TakeDropped(w, oom) => TakeHandles(s, w, oom);
    case Deliver(w, now) => DeliverHandles(s, w, now);
    case CancelCommand(_) => FlagOnce(s, l);
    case SpoolError(_) => FlagOnce(s, l);
    case _ =>
      NoCommandLabel(s, l);
      NoCommandInv(s, Next(s, l));
  }

  predicate AboutCommands(l: Label) {
    l.RegisterCommand? || l.SettleHandle? || l.PurgeHandle? || l.TakeDropped? || l.Deliver? || l.CancelCommand?
    || l.SpoolError?
  }

  lemma NoCommandLabel(s: Sys, l: Label)
    requires !AboutCommands(l)
    ensures NoCommand(s, Next(s, l))
  {
    hide Next, DoHello, DoCreate, DoForget;
    NextAtPool(s, l);
    match l
    case Hello(w, profile) => HelloCommands(s, w, profile);
    case CreateSession(id, profile, inputs, now) => CreateCommands(s, id, profile, inputs, now);
    case BeginClose(_, _, _) => CloseCommands(s, l);
    case ForgetDropped(w, now) => ForgetCommands(s, w, now);
    case _ =>
      if PoolOnly(l) {
        PoolOnlyStep(s, l);
        PoolCommands(s.pool, l);
      } else if AtServer(l) {
        ServerKeepsPool(s, l);
      } else {
        WorkerKeepsPool(s, l);
      }
  }

  lemma HelloCommands(s: Sys, w: WorkerId, profile: string)
    ensures NoCommand(s, DoHello(s, w, profile))
  {
  }

  lemma CreateCommands(s: Sys, id: SessionId, profile: string, inputs: P.Inputs, now: int)
    ensures NoCommand(s, DoCreate(s, id, profile, inputs, now))
  {
  }

  lemma PoolCommands(p: P.Pool, l: Label)
    requires l.ReplyCreated? || l.Status? || l.AttachTerminal? || l.DetachTerminal? || l.ForgetSessions?
    ensures PoolStep(p, l).handles == p.handles && PoolStep(p, l).inflight == p.inflight
  {
  }

  lemma CloseCommands(s: Sys, l: Label)
    requires l.BeginClose?
    ensures NoCommand(s, Next(s, l))
  {
    hide DoBeginClose, Next;
    NextAtPool(s, l);
    if l.id in s.holders {
      HeldClose(s, l);
    } else {
      BeginCloseShape(s, l.id, l.gate, l.waiter);
    }
  }

  lemma HeldClose(s: Sys, l: Label)
    requires l.BeginClose? && l.id in s.holders
    ensures Next(s, l) == s
  {
    hide Next;
    NextAtPool(s, l);
  }

  lemma RestCommands(p: P.Pool, w: WorkerId, now: int)
    ensures P.DropRest(p, w, now).0.handles == p.handles && P.DropRest(p, w, now).0.inflight == p.inflight
  {
  }

  lemma ForgetCommands(s: Sys, w: WorkerId, now: int)
    ensures NoCommand(s, DoForget(s, w, now))
  {
    hide P.DropRest;
    RestCommands(s.pool, w, now);
  }

  lemma FlagOnce(s: Sys, l: Label)
    requires HandlesInv(s) && (l.CancelCommand? || l.SpoolError?)
    ensures HandlesInv(Next(s, l)) && Settled(s, Next(s, l))
  {
    hide HandlesInv, Settled, Next;
    PoolOnlyStep(s, l);
    if PoolStep(s.pool, l) == s.pool {
      NoCommandInv(s, Next(s, l));
    } else {
      FlagHandles(s, Next(s, l), l.rid);
    }
  }

  lemma SettledTrans(a: Sys, b: Sys, c: Sys)
    requires Settled(a, b) && Settled(b, c)
    ensures Settled(a, c)
  {
    forall rid | rid in a.usedCommands && rid in c.pool.handles && !IsRunning(a.pool, rid)
      ensures OutcomeOf(c.pool.handles[rid].runtime) == OutcomeOf(a.pool.handles[rid].runtime)
    {
      assert rid in b.pool.handles && !IsRunning(b.pool, rid);
    }
  }

  lemma {:induction false} HandleRun(s: Sys, labels: seq<Label>)
    requires HandlesInv(s) && SysInv(s)
    ensures HandlesInv(Exec(s, labels)) && Settled(s, Exec(s, labels))
    decreases |labels|
  {
    hide HandlesInv, SysInv, Next, Settled;
    if labels == [] {
      assert Settled(s, s) by { assert forall rid :: rid in s.pool.handles ==> rid in s.pool.handles; NoChange(s); }
    } else {
      HandleStep(s, labels[0]);
      NextPreserves(s, labels[0]);
      HandleRun(Next(s, labels[0]), labels[1..]);
      SettledTrans(s, Next(s, labels[0]), Exec(s, labels));
    }
  }

  lemma NoChange(s: Sys)
    ensures Settled(s, s)
  {
  }

  /** At every moment a command's handle says Running exactly when the command is
      in flight or its one settlement is due, and never both; a settled handle's
      status, cause, exit data and finish time agree. */
  lemma OutcomeAccounting(labels: seq<Label>, rid: ExecId)
    ensures var s := Exec(INIT, labels);
            && (IsRunning(s.pool, rid) <==> rid in s.pool.inflight || Finalizing(s.finalizers, rid))
            && !(rid in s.pool.inflight && Finalizing(s.finalizers, rid))
            && (forall v, u :: (rid, v) in s.finalizers && (rid, u) in s.finalizers ==>
                  v == u && s.finalizers[(rid, v)] == 1)
            && (rid in s.pool.handles ==> Coherent(OutcomeOf(s.pool.handles[rid].runtime)))
  {
    hide SysInv, Exec, Coherent;
    assert HandlesInv(INIT);
    Reachable([]);
    InitRun();
    HandleRun(INIT, labels);
  }

  lemma InitRun()
    ensures SysInv(INIT)
  {
    hide SysInv;
    Reachable([]);
    assert Exec(INIT, []) == INIT;
  }

  /** A handle that has an outcome keeps it for good: whatever results, closes and
      drops are still to come, its status, cause, exit data and finish time stay as
      they are until it is purged, and its id is never handed out again. */
  lemma OutcomeOnce(labels: seq<Label>, more: seq<Label>, rid: ExecId)
    ensures var s := Exec(INIT, labels);
            var s' := Exec(INIT, labels + more);
            rid in s.pool.handles && !IsRunning(s.pool, rid) && rid in s'.pool.handles ==>
              OutcomeOf(s'.pool.handles[rid].runtime) == OutcomeOf(s.pool.handles[rid].runtime)
              && s'.pool.handles[rid].workerId == s.pool.handles[rid].workerId
              && s'.pool.handles[rid].sessionId == s.pool.handles[rid].sessionId
    ensures var s := Exec(INIT, labels);
            rid in s.usedCommands && rid !in s.pool.handles ==> rid !in Exec(INIT, labels + more).pool.handles
  {
    hide SysInv, Next, Coherent, Accounted;
    HandlesHere(labels);
    Reachable(labels);
    ExecConcat(INIT, labels, more);
    HandleRun(Exec(INIT, labels), more);
  }

  lemma HandlesHere(labels: seq<Label>)
    ensures HandlesInv(Exec(INIT, labels))
  {
    hide SysInv, Next;
    assert HandlesInv(INIT);
    InitRun();
    HandleRun(INIT, labels);
  }

  /** A command that has left flight never comes back: not into flight, not on
      the wire to the worker of its session, not into the worker's loop; and a
      worker that has left its loop holds it only if that is the command it gave
      up. So no command is answered or run again. */
  lemma NeverAgain(labels: seq<Label>, more: seq<Label>, rid: ExecId)
    requires var s := Exec(INIT, labels); rid in s.usedCommands && rid !in s.pool.inflight
    ensures var s := Exec(INIT, labels + more);
            && rid !in s.pool.inflight
            && (forall w :: w in s.conns && s.conns[w].worker.Serving? ==>
                  var c := s.conns[w];
                  rid !in Carried(c.down, c.worker.id) + S.Held(c.worker.sched) + Answered(c.up))
            && (forall w :: G.HasLeft(s, w) ==>
                  && rid !in Carried(s.conns[w].down, s.pool.workerSessions[w]) && rid !in Answered(s.conns[w].up)
                  && (rid in S.Held(LeftBy(s.conns[w].worker).value) <==>
                        S.GivenUp(LeftBy(s.conns[w].worker).value) == Some(rid)))
  {
    hide SysInv, Next, Coherent, Accounted, S.Held, Carried, Answered, S.GivenUp;
    HandlesHere(labels);
    Reachable(labels);
    ExecConcat(INIT, labels, more);
    HandleRun(Exec(INIT, labels), more);
    var s := Exec(INIT, labels + more);
    forall w | w in s.conns && s.conns[w].worker.Serving?
      ensures var c := s.conns[w];
              rid !in Carried(c.down, c.worker.id) + S.Held(c.worker.sched) + Answered(c.up)
    {
      G.NeverTwiceNeverLost(labels + more, w, rid);
    }
    forall w | G.HasLeft(s, w)
      ensures rid !in Carried(s.conns[w].down, s.pool.workerSessions[w]) && rid !in Answered(s.conns[w].up)
      ensures rid in S.Held(LeftBy(s.conns[w].worker).value) <==>
                S.GivenUp(LeftBy(s.conns[w].worker).value) == Some(rid)
    {
      G.LeftHolds(labels + more, w, rid);
    }
  }
}
