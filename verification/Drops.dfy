/** Losing a worker. The drop is two critical sections, and what can be said of
    the commands it leaves depends on what happens between them. */
module Drops {
  import opened Wrappers
  import opened Protocol
  import S = Scheduler
  import P = ServerPool
  import opened Link
  import opened System
  import opened Composition
  import O = Outcomes
  import R = SessionRuns

  // ------------------------------------------------------------ the stateful count

  ghost predicate Exact(p: P.Pool, dropping: multiset<WorkerId>) {
    forall id :: id in p.sessions && P.Holding(p.sessions[id].state) && p.sessions[id].workerId !in dropping ==>
      |P.StatefulOf(p.inflight, id)| == p.sessions[id].statefulCount
  }

  /** Neither the commands in flight nor any count changed. */
  ghost predicate SameCounts(p: P.Pool, p': P.Pool) {
    && p'.inflight == p.inflight
    && (forall id :: id in p'.sessions ==>
          if id in p.sessions
          then p'.sessions[id].workerId == p.sessions[id].workerId
               && p'.sessions[id].statefulCount == p.sessions[id].statefulCount
               && (P.Holding(p'.sessions[id].state) ==> P.Holding(p.sessions[id].state))
          else p'.sessions[id].statefulCount == 0 && P.NoneOf(p.inflight, id))
  }

  lemma SameExact(p: P.Pool, p': P.Pool, dropping: multiset<WorkerId>)
    requires Exact(p, dropping) && SameCounts(p, p')
    ensures Exact(p', dropping)
  {
    forall id | id in p'.sessions && id !in p.sessions ensures P.StatefulOf(p'.inflight, id) == {} {
    }
  }

  lemma RegisterExact(p: P.Pool, dropping: multiset<WorkerId>, id: SessionId, rid: ExecId, mode: Mode, w: WorkerId,
                      sink: nat, now: int)
    requires Exact(p, dropping) && rid !in p.inflight && P.Submit(p, id, rid, mode, w, sink, now).Ok?
    ensures Exact(P.Submit(p, id, rid, mode, w, sink, now).value, dropping)
  {
    var p' := P.Submit(p, id, rid, mode, w, sink, now).value;
    forall i | i in p'.sessions && P.Holding(p'.sessions[i].state) && p'.sessions[i].workerId !in dropping
      ensures |P.StatefulOf(p'.inflight, i)| == p'.sessions[i].statefulCount
    {
      P.StatefulAdd(p.inflight, rid, p'.inflight[rid], i);
    }
  }

  lemma CompleteExact(p: P.Pool, dropping: multiset<WorkerId>, rid: ExecId, now: int)
    requires Exact(p, dropping)
    ensures Exact(P.CompleteRequest(p, rid, now), dropping)
  {
    var p' := P.CompleteRequest(p, rid, now);
    if rid in p.inflight {
      forall i | i in p'.sessions && P.Holding(p'.sessions[i].state) && p'.sessions[i].workerId !in dropping
        ensures |P.StatefulOf(p'.inflight, i)| == p'.sessions[i].statefulCount
      {
        P.StatefulRemove(p.inflight, rid, i);
        assert rid in P.StatefulOf(p.inflight, i) <==> p.inflight[rid].sessionId == i && p.inflight[rid].mode.Stateful?;
      }
    }
  }

  lemma ClosedExact(p: P.Pool, dropping: multiset<WorkerId>, w: WorkerId, id: SessionId, error: Option<string>,
                    reusable: bool, now: int)
    requires Exact(p, dropping) && P.SessionClosed(p, w, id, error, reusable, now).Some?
    ensures Exact(P.SessionClosed(p, w, id, error, reusable, now).value.pool, dropping)
  {
    var p' := P.SessionClosed(p, w, id, error, reusable, now).value.pool;
    forall i | i in p'.sessions && i != id ensures P.StatefulOf(p'.inflight, i) == P.StatefulOf(p.inflight, i) {
    }
  }

  lemma TakeExact(p: P.Pool, dropping: multiset<WorkerId>, w: WorkerId)
    requires Exact(p, dropping) && P.InflightInv(p.inflight, p.sessions)
    ensures Exact(P.DropTake(p, w).0, dropping + multiset{w})
  {
    var p' := P.DropTake(p, w).0;
    forall i | i in p'.sessions && p'.sessions[i].workerId != w
      ensures P.StatefulOf(p'.inflight, i) == P.StatefulOf(p.inflight, i)
    {
    }
  }

  lemma RestExact(p: P.Pool, dropping: multiset<WorkerId>, w: WorkerId, now: int)
    requires Exact(p, dropping) && P.OwnerInv(p.liveness, p.workerSessions, p.sessions)
    ensures Exact(P.DropRest(p, w, now).0, dropping - multiset{w})
  {
  }

  lemma ReadyCounts(p: P.Pool, w: WorkerId, id: SessionId, error: Option<string>, now: int)
    ensures SameCounts(p, P.SessionReady(p, w, id, error, now))
  {
  }

  lemma HelloCounts(s: Sys, w: WorkerId, profile: string)
    ensures SameCounts(s.pool, DoHello(s, w, profile).pool) && DoHello(s, w, profile).dropping == s.dropping
  {
  }

  lemma CreateCounts(s: Sys, id: SessionId, profile: string, inputs: P.Inputs, now: int)
    requires s.pool.sessions.Keys <= s.usedSessions
    requires forall rid :: rid in s.pool.inflight ==> s.pool.inflight[rid].sessionId in s.usedSessions
    ensures var s' := DoCreate(s, id, profile, inputs, now); SameCounts(s.pool, s'.pool) && s'.dropping == s.dropping
  {
  }

  lemma RecordCounts(p: P.Pool, l: Label)
    requires l.ReplyCreated? || l.Status? || l.AttachTerminal? || l.DetachTerminal?
    ensures SameCounts(p, PoolStep(p, l))
  {
    if l.AttachTerminal? || l.DetachTerminal? {
      TerminalCounts(p, l);
    }
  }

  lemma TerminalCounts(p: P.Pool, l: Label)
    requires l.AttachTerminal? || l.DetachTerminal?
    ensures SameCounts(p, PoolStep(p, l))
  {
    hide P.Holding, P.NoneOf;
  }

  lemma OtherCounts(p: P.Pool, l: Label)
    requires l.CancelCommand? || l.SpoolError? || l.PurgeHandle? || l.ForgetSessions?
    ensures SameCounts(p, PoolStep(p, l))
  {
  }

  lemma PoolCounts(s: Sys, l: Label)
    requires PoolOnly(l)
    ensures SameCounts(s.pool, Next(s, l).pool) && Next(s, l).dropping == s.dropping
  {
    hide Next, SameCounts, PoolStep;
    PoolOnlyStep(s, l);
    if l.CancelCommand? || l.SpoolError? || l.PurgeHandle? || l.ForgetSessions? {
      OtherCounts(s.pool, l);
    } else {
      RecordCounts(s.pool, l);
    }
  }

  lemma CloseCounts(s: Sys, l: Label)
    requires l.BeginClose?
    ensures SameCounts(s.pool, Next(s, l).pool) && Next(s, l).dropping == s.dropping
  {
    hide DoBeginClose, Next;
    NextAtPool(s, l);
    if l.id in s.holders {
      O.HeldClose(s, l);
    } else {
      BeginCloseShape(s, l.id, l.gate, l.waiter);
    }
  }

  lemma SettleCounts(s: Sys, rid: ExecId, v: P.Verdict, now: int)
    ensures SameCounts(s.pool, DoSettle(s, rid, v, now).pool) && DoSettle(s, rid, v, now).dropping == s.dropping
  {
    hide P.Settle;
  }

  lemma DeliverExact(s: Sys, w: WorkerId, now: int)
    requires Exact(s.pool, s.dropping)
    ensures Exact(DoDeliver(s, w, now).pool, DoDeliver(s, w, now).dropping)
  {
    hide Exact, SameCounts, P.SessionReady, P.CompleteRequest, P.SessionClosed;
    if w in s.conns && s.conns[w].up != [] {
      match s.conns[w].up[0]
      case SessionReady(id, error) =>
        ReadyCounts(s.pool, w, id, error, now);
        SameExact(s.pool, DoDeliver(s, w, now).pool, s.dropping);
      case ResultOf(r) => CompleteExact(s.pool, s.dropping, r.requestId, now);
      case SessionClosed(id, error, reusable) =>
        if P.SessionClosed(s.pool, w, id, error, reusable, now).Some? {
          ClosedExact(s.pool, s.dropping, w, id, error, reusable, now);
        }
      case _ =>
    }
  }

  lemma RegisterStep(s: Sys, id: SessionId, now: int)
    requires Exact(s.pool, s.dropping) && UsedInv(s)
    ensures Exact(DoRegister(s, id, now).pool, DoRegister(s, id, now).dropping)
  {
    hide Exact, P.Submit;
    if id in s.holders && s.holders[id].Submitting? && s.holders[id].execute.requestId !in s.usedCommands {
      var h := s.holders[id];
      if P.Submit(s.pool, id, h.execute.requestId, h.mode, h.worker, h.sink, now).Ok? {
        RegisterExact(s.pool, s.dropping, id, h.execute.requestId, h.mode, h.worker, h.sink, now);
      }
    }
  }

  lemma DropExact(s: Sys, w: WorkerId, oom: bool, now: int)
    requires Exact(s.pool, s.dropping) && P.PoolInv(s.pool)
    ensures Exact(DoTake(s, w, oom).pool, DoTake(s, w, oom).dropping)
    ensures Exact(DoForget(s, w, now).pool, DoForget(s, w, now).dropping)
  {
    hide Exact, P.DropTake, P.DropRest, P.IdleInv, P.CountInv, P.RecordsInv, P.OwnerInv, P.InflightInv, Tasks;
    TakeExact(s.pool, s.dropping, w);
    RestExact(s.pool, s.dropping, w, now);
  }

  lemma StepExact(s: Sys, l: Label)
    requires Exact(s.pool, s.dropping) && SysInv(s)
    ensures Exact(Next(s, l).pool, Next(s, l).dropping)
  {
    hide Exact, SameCounts, Next, ConnInv, P.PoolInv, LinksInv, SinksInv, HoldersInv, InflightHome, DoDeliver,
         DoRegister, DoTake, DoForget;
    NextAtPool(s, l);
    match l
    case Deliver(w, now) => DeliverExact(s, w, now);
    case RegisterCommand(id, now) => RegisterStep(s, id, now);
    case TakeDropped(w, oom) => DropExact(s, w, oom, 0);
    case ForgetDropped(w, now) => DropExact(s, w, false, now);
    case _ =>
      StepCounts(s, l);
      SameExact(s.pool, Next(s, l).pool, s.dropping);
  }

  lemma StepCounts(s: Sys, l: Label)
    requires UsedInv(s) && !l.Deliver? && !l.RegisterCommand? && !l.TakeDropped? && !l.ForgetDropped?
    ensures SameCounts(s.pool, Next(s, l).pool) && Next(s, l).dropping == s.dropping
  {
    hide SameCounts, Next, DoSettle, DoHello, DoCreate, DoBeginClose;
    NextAtPool(s, l);
    match l
    case BeginClose(_, _, _) => CloseCounts(s, l);
    case SettleHandle(rid, v, now) => SettleCounts(s, rid, v, now);
    case Hello(w, profile) => HelloCounts(s, w, profile);
    case CreateSession(id, profile, inputs, now) => CreateCounts(s, id, profile, inputs, now);
    case _ =>
      if PoolOnly(l) {
        PoolCounts(s, l);
      } else {
        R.LinkForward(s, l);
        SelfCounts(s.pool);
      }
  }

  lemma SelfCounts(p: P.Pool)
    ensures SameCounts(p, p)
  {
  }

  lemma {:induction false} ExactRun(s: Sys, labels: seq<Label>)
    requires Exact(s.pool, s.dropping) && SysInv(s)
    ensures Exact(Exec(s, labels).pool, Exec(s, labels).dropping)
    decreases |labels|
  {
    hide Exact, SysInv, Next;
    if labels != [] {
      StepExact(s, labels[0]);
      NextPreserves(s, labels[0]);
      ExactRun(Next(s, labels[0]), labels[1..]);
    }
  }

  /** `stateful_count` is never below the number of stateful commands in flight,
      and is exactly that number for every session that is not over and whose
      worker is not being dropped. */
  lemma CountExact(labels: seq<Label>, id: SessionId)
    ensures var s := Exec(INIT, labels);
            id in s.pool.sessions ==>
              && |P.StatefulOf(s.pool.inflight, id)| <= s.pool.sessions[id].statefulCount
              && (P.Holding(s.pool.sessions[id].state) && s.pool.sessions[id].workerId !in s.dropping ==>
                    s.pool.sessions[id].statefulCount == |P.StatefulOf(s.pool.inflight, id)|)
  {
    hide BooksInv, LinksInv, P.IdleInv, P.OwnerInv, P.RecordsInv, P.InflightInv, Next;
    assert Exact(INIT.pool, INIT.dropping);
    O.InitRun();
    ExactRun(INIT, labels);
    Reachable(labels);
  }

  // ------------------------------------------------------------ nothing stranded

  /** Every command in flight is on a worker its session owns, and a worker half dropped has none left. */
  ghost predicate Sound(p: P.Pool, dropping: multiset<WorkerId>) {
    P.Owned(p) && forall w :: w in dropping ==> P.OnWorker(p.inflight, w) == {}
  }

  /** The step does not register a command on a worker that is being dropped. */
  predicate Clear(s: Sys, l: Label) {
    l.RegisterCommand? && l.id in s.holders && s.holders[l.id].Submitting? ==> s.holders[l.id].worker !in s.dropping
  }

  ghost predicate ClearRun(s: Sys, labels: seq<Label>)
    decreases |labels|
  {
    labels != [] ==> Clear(s, labels[0]) && ClearRun(Next(s, labels[0]), labels[1..])
  }

  /** No command was added and no owner of one changed. */
  lemma SoundKept(p: P.Pool, p': P.Pool, dropping: multiset<WorkerId>, dropping': multiset<WorkerId>)
    requires Sound(p, dropping) && (forall w :: w in dropping' ==> w in dropping)
    requires forall rid :: rid in p'.inflight ==> rid in p.inflight && p'.inflight[rid] == p.inflight[rid]
    requires forall w :: w in p.workerSessions && P.OnWorker(p'.inflight, w) != {} ==>
               w in p'.workerSessions && p'.workerSessions[w] == p.workerSessions[w]
    ensures Sound(p', dropping')
  {
    forall rid | rid in p'.inflight
      ensures p'.inflight[rid].workerId in p'.workerSessions
              && p'.workerSessions[p'.inflight[rid].workerId] == p'.inflight[rid].sessionId
    {
      assert rid in P.OnWorker(p'.inflight, p'.inflight[rid].workerId);
    }
    forall w | w in dropping' ensures P.OnWorker(p'.inflight, w) == {} {
      assert P.OnWorker(p'.inflight, w) <= P.OnWorker(p.inflight, w);
    }
  }

  lemma SubmitSound(p: P.Pool, dropping: multiset<WorkerId>, id: SessionId, rid: ExecId, mode: Mode, w: WorkerId,
                    sink: nat, now: int)
    requires Sound(p, dropping) && P.OwnerInv(p.liveness, p.workerSessions, p.sessions) && w !in dropping
    requires id in p.sessions ==> p.sessions[id].workerId == w
    requires P.Submit(p, id, rid, mode, w, sink, now).Ok?
    ensures Sound(P.Submit(p, id, rid, mode, w, sink, now).value, dropping)
  {
    var p' := P.Submit(p, id, rid, mode, w, sink, now).value;
    forall v | v in dropping ensures P.OnWorker(p'.inflight, v) == {} {
      assert P.OnWorker(p'.inflight, v) <= P.OnWorker(p.inflight, v);
    }
  }

  lemma RegisterSound(s: Sys, id: SessionId, now: int)
    requires Sound(s.pool, s.dropping) && SysInv(s) && Clear(s, RegisterCommand(id, now))
    ensures Sound(DoRegister(s, id, now).pool, DoRegister(s, id, now).dropping)
  {
    hide Sound, P.Submit, P.IdleInv, P.RecordsInv, P.CountInv, P.InflightInv, SinksInv, InflightHome, UsedInv, LinksInv;
    if id in s.holders && s.holders[id].Submitting? && s.holders[id].execute.requestId !in s.usedCommands {
      var h := s.holders[id];
      if P.Submit(s.pool, id, h.execute.requestId, h.mode, h.worker, h.sink, now).Ok? {
        SubmitSound(s.pool, s.dropping, id, h.execute.requestId, h.mode, h.worker, h.sink, now);
      }
    }
  }

  lemma ClosedSound(p: P.Pool, dropping: multiset<WorkerId>, w: WorkerId, id: SessionId, error: Option<string>,
                    reusable: bool, now: int)
    requires Sound(p, dropping) && w in p.workerSessions && p.workerSessions[w] == id
    requires P.SessionClosed(p, w, id, error, reusable, now).Some?
    ensures Sound(P.SessionClosed(p, w, id, error, reusable, now).value.pool, dropping)
  {
    var p' := P.SessionClosed(p, w, id, error, reusable, now).value.pool;
    assert forall rid :: rid in P.OnWorker(p.inflight, w) ==> rid in P.InflightOf(p.inflight, id);
    SoundKept(p, p', dropping, dropping);
  }

  lemma RestSound(p: P.Pool, dropping: multiset<WorkerId>, w: WorkerId, now: int)
    requires Sound(p, dropping) && w in dropping
    ensures Sound(P.DropRest(p, w, now).0, dropping - multiset{w})
  {
    hide P.Retain;
    SoundKept(p, P.DropRest(p, w, now).0, dropping, dropping - multiset{w});
  }

  lemma TakeSound(p: P.Pool, dropping: multiset<WorkerId>, w: WorkerId)
    requires Sound(p, dropping)
    ensures Sound(P.DropTake(p, w).0, dropping + multiset{w})
  {
    var p' := P.DropTake(p, w).0;
    SoundKept(p, p', dropping, dropping);
    assert P.OnWorker(p'.inflight, w) == {};
  }

  lemma CompleteSound(p: P.Pool, dropping: multiset<WorkerId>, rid: ExecId, now: int)
    requires Sound(p, dropping)
    ensures Sound(P.CompleteRequest(p, rid, now), dropping)
  {
    SoundKept(p, P.CompleteRequest(p, rid, now), dropping, dropping);
  }

  lemma CreateSound(s: Sys, l: Label)
    requires Sound(s.pool, s.dropping) && P.PoolInv(s.pool) && l.CreateSession?
    ensures Sound(Next(s, l).pool, Next(s, l).dropping)
  {
    hide Next, P.OwnerInv, P.RecordsInv, P.CountInv, P.InflightInv, P.RemoveAt, P.NewSession;
    NextAtPool(s, l);
    SoundKept(s.pool, Next(s, l).pool, s.dropping, s.dropping);
  }

  lemma DeliverSound(s: Sys, w: WorkerId, now: int)
    requires Sound(s.pool, s.dropping) && SysInv(s)
    ensures Sound(DoDeliver(s, w, now).pool, DoDeliver(s, w, now).dropping)
  {
    hide Sound, SysInv, P.SessionReady, P.CompleteRequest, P.SessionClosed;
    if w in s.conns && s.conns[w].up != [] {
      match s.conns[w].up[0]
      case SessionReady(id, error) =>
        ReadySound(s.pool, s.dropping, w, id, error, now);
      case ResultOf(r) => CompleteSound(s.pool, s.dropping, r.requestId, now);
      case SessionClosed(id, error, reusable) =>
        if P.SessionClosed(s.pool, w, id, error, reusable, now).Some? {
          ReportOwned(s, w);
          ClosedSound(s.pool, s.dropping, w, id, error, reusable, now);
        }
      case _ =>
    }
  }

  /** A report comes from the worker its session owns. */
  lemma ReportOwned(s: Sys, w: WorkerId)
    requires SysInv(s) && w in s.conns && s.conns[w].up != [] && s.conns[w].up[0].SessionClosed?
    ensures w in s.pool.workerSessions && s.pool.workerSessions[w] == s.conns[w].up[0].sessionId
  {
    hide ConnInv, P.PoolInv, BooksInv, Known;
    UpFrame(SliceOf(s, w, s.conns[w].sink), s.conns[w]);
    OwnedFacts(s, w, s.conns[w].sink);
  }

  lemma ReadySound(p: P.Pool, dropping: multiset<WorkerId>, w: WorkerId, id: SessionId, error: Option<string>, now: int)
    requires Sound(p, dropping)
    ensures Sound(P.SessionReady(p, w, id, error, now), dropping)
  {
    SoundKept(p, P.SessionReady(p, w, id, error, now), dropping, dropping);
  }

  predicate SameOwners(p: P.Pool, p': P.Pool) { p'.inflight == p.inflight && p'.workerSessions == p.workerSessions }

  lemma PoolOwners(p: P.Pool, l: Label)
    requires PoolOnly(l)
    ensures SameOwners(p, PoolStep(p, l))
  {
  }

  /** Steps that change neither the commands in flight nor the owners. */
  predicate OwnersAside(l: Label) {
    PoolOnly(l) || l.Hello? || l.BeginClose? || l.SettleHandle? || AtServer(l) || AtWorker(l)
  }

  lemma AsideOwners(s: Sys, l: Label)
    requires OwnersAside(l)
    ensures SameOwners(s.pool, Next(s, l).pool) && Next(s, l).dropping == s.dropping
  {
    hide Next, DoBeginClose, PoolStep, P.Finalize;
    NextAtPool(s, l);
    if PoolOnly(l) {
      PoolOnlyStep(s, l);
      PoolOwners(s.pool, l);
    } else if l.BeginClose? {
      if l.id in s.holders {
        O.HeldClose(s, l);
      } else {
        BeginCloseShape(s, l.id, l.gate, l.waiter);
      }
    } else if l.SettleHandle? {
      FinalizeShape(s.pool, l.rid, l.verdict, l.now);
    } else if AtServer(l) || AtWorker(l) {
      R.LinkForward(s, l);
    }
  }

  lemma DropSound(s: Sys, w: WorkerId, oom: bool, now: int)
    requires Sound(s.pool, s.dropping)
    ensures Sound(DoTake(s, w, oom).pool, DoTake(s, w, oom).dropping)
    ensures Sound(DoForget(s, w, now).pool, DoForget(s, w, now).dropping)
  {
    hide Sound, P.DropTake, P.DropRest, Tasks;
    TakeSound(s.pool, s.dropping, w);
    if w in s.dropping {
      RestSound(s.pool, s.dropping, w, now);
    }
  }

  lemma StepSound(s: Sys, l: Label)
    requires Sound(s.pool, s.dropping) && SysInv(s) && Clear(s, l)
    ensures Sound(Next(s, l).pool, Next(s, l).dropping)
  {
    hide Sound, Next, ConnInv, P.PoolInv, BooksInv, LinksInv, OwnersAside, DoDeliver, DoRegister, DoTake, DoForget,
         DoCreate;
    NextAtPool(s, l);
    match l
    case Deliver(w, now) => DeliverSound(s, w, now);
    case RegisterCommand(id, now) => RegisterSound(s, id, now);
    case TakeDropped(w, oom) => DropSound(s, w, oom, 0);
    case ForgetDropped(w, now) => DropSound(s, w, false, now);
    case CreateSession(_, _, _, _) => CreateSound(s, l);
    case _ =>
      AllLabels(l);
      AsideOwners(s, l);
      SameSound(s.pool, Next(s, l).pool, s.dropping);
  }

  lemma AllLabels(l: Label)
    requires !l.Deliver? && !l.RegisterCommand? && !l.TakeDropped? && !l.ForgetDropped? && !l.CreateSession?
    ensures OwnersAside(l)
  {
  }

  lemma SameSound(p: P.Pool, p': P.Pool, dropping: multiset<WorkerId>)
    requires Sound(p, dropping) && SameOwners(p, p')
    ensures Sound(p', dropping)
  {
  }

  lemma {:induction false} SoundRun(s: Sys, labels: seq<Label>)
    requires Sound(s.pool, s.dropping) && SysInv(s) && ClearRun(s, labels)
    ensures Sound(Exec(s, labels).pool, Exec(s, labels).dropping)
    decreases |labels|
  {
    hide Sound, SysInv, Next, Clear;
    if labels != [] {
      StepSound(s, labels[0]);
      NextPreserves(s, labels[0]);
      SoundRun(Next(s, labels[0]), labels[1..]);
    }
  }

  /** When no command is registered on a worker between the two halves of its
      drop, nothing is stranded: a handle that says Running is in flight on a
      registered worker owned by its session, or its settlement is due; and idle
      plus busy workers never exceed the registered ones. */
  lemma NothingStranded(labels: seq<Label>)
    requires ClearRun(INIT, labels)
    ensures var s := Exec(INIT, labels);
            && (forall rid :: O.IsRunning(s.pool, rid) && !O.Finalizing(s.finalizers, rid) ==>
                  && rid in s.pool.inflight
                  && var w := s.pool.inflight[rid].workerId;
                     w in s.pool.liveness && w in s.pool.workerSessions
                     && s.pool.workerSessions[w] == s.pool.inflight[rid].sessionId)
            && P.Snapshot(s.pool).0 + P.Snapshot(s.pool).1 <= |s.pool.liveness|
  {
    hide BooksInv, LinksInv, P.IdleInv, P.RecordsInv, P.CountInv, P.InflightInv, Next;
    assert Sound(INIT.pool, INIT.dropping);
    O.InitRun();
    SoundRun(INIT, labels);
    Reachable(labels);
    P.SnapshotBound(Exec(INIT, labels).pool);
    var s := Exec(INIT, labels);
    forall rid | O.IsRunning(s.pool, rid) && !O.Finalizing(s.finalizers, rid) ensures rid in s.pool.inflight {
      O.OutcomeAccounting(labels, rid);
    }
  }

  /** The second half of a drop strands the commands in flight on its worker, and no others. */
  lemma ForgetStrands(labels: seq<Label>, w: WorkerId, now: int)
    requires var s := Exec(INIT, labels); P.Owned(s.pool) && w in s.dropping
    ensures var s := Exec(INIT, labels);
            P.Owned(Next(s, ForgetDropped(w, now)).pool) <==> P.OnWorker(s.pool.inflight, w) == {}
  {
    hide Exec, Next, P.DropRest;
    var s := Exec(INIT, labels);
    NextAtPool(s, ForgetDropped(w, now));
    ForgetOwners(s.pool, w, now);
    var p' := Next(s, ForgetDropped(w, now)).pool;
    if P.OnWorker(s.pool.inflight, w) != {} {
      var rid :| rid in P.OnWorker(s.pool.inflight, w);
      assert p'.inflight[rid].workerId == w;
    } else {
      forall rid | rid in p'.inflight ensures p'.inflight[rid].workerId != w {
        assert rid !in P.OnWorker(s.pool.inflight, w);
      }
    }
  }

  /** A command is lost from view: it is in flight for a session that no worker has any more. */
  ghost predicate Adrift(p: P.Pool, rid: ExecId, pending: P.Pending) {
    && rid in p.inflight && p.inflight[rid] == pending
    && (forall w :: w in p.workerSessions ==> p.workerSessions[w] != pending.sessionId)
  }

  lemma ForgetOwners(p: P.Pool, w: WorkerId, now: int)
    ensures P.DropRest(p, w, now).0.inflight == p.inflight
    ensures P.DropRest(p, w, now).0.workerSessions == p.workerSessions - {w}
  {
  }

  /** The second half of a drop strands every command registered since the first. */
  lemma DropStrands(labels: seq<Label>, w: WorkerId, now: int, rid: ExecId)
    requires var s := Exec(INIT, labels);
             P.Owned(s.pool) && w in s.dropping && rid in s.pool.inflight && s.pool.inflight[rid].workerId == w
    ensures var s := Exec(INIT, labels);
            Adrift(Next(s, ForgetDropped(w, now)).pool, rid, s.pool.inflight[rid])
  {
    hide Exec, P.DropRest, P.IdleInv, P.RecordsInv, P.CountInv, P.InflightInv, LinksInv, BooksInv;
    Reachable(labels);
    ForgetOwners(Exec(INIT, labels).pool, w, now);
  }

  lemma AdriftKept(p: P.Pool, p': P.Pool, rid: ExecId, pending: P.Pending)
    requires Adrift(p, rid, pending) && rid in p'.inflight && p'.inflight[rid] == pending
    requires forall w :: w in p'.workerSessions ==>
               || (w in p.workerSessions && p'.workerSessions[w] == p.workerSessions[w])
               || p'.workerSessions[w] != pending.sessionId
    ensures Adrift(p', rid, pending)
  {
  }

  lemma AdriftReady(p: P.Pool, rid: ExecId, pending: P.Pending, w: WorkerId, id: SessionId, error: Option<string>,
                    now: int)
    requires Adrift(p, rid, pending)
    ensures Adrift(P.SessionReady(p, w, id, error, now), rid, pending)
  {
  }

  lemma AdriftResult(p: P.Pool, rid: ExecId, pending: P.Pending, w: WorkerId, done: ExecId, now: int)
    requires Adrift(p, rid, pending)
    requires done in p.inflight && w in p.workerSessions && p.workerSessions[w] == p.inflight[done].sessionId
    ensures Adrift(P.CompleteRequest(p, done, now), rid, pending)
  {
    AdriftKept(p, P.CompleteRequest(p, done, now), rid, pending);
  }

  lemma AdriftClosed(p: P.Pool, rid: ExecId, pending: P.Pending, w: WorkerId, id: SessionId, error: Option<string>,
                     reusable: bool,
                     now: int)
    requires Adrift(p, rid, pending) && w in p.workerSessions && p.workerSessions[w] == id
    requires P.SessionClosed(p, w, id, error, reusable, now).Some?
    ensures Adrift(P.SessionClosed(p, w, id, error, reusable, now).value.pool, rid, pending)
  {
    AdriftKept(p, P.SessionClosed(p, w, id, error, reusable, now).value.pool, rid, pending);
  }

  /** A result read from a worker is for the session the worker belongs to. */
  lemma ResultOwned(s: Sys, w: WorkerId)
    requires SysInv(s) && w in s.conns && s.conns[w].up != [] && s.conns[w].up[0].ResultOf?
    ensures var rid := s.conns[w].up[0].result.requestId;
            rid in s.pool.inflight && w in s.pool.workerSessions
            && s.pool.workerSessions[w] == s.pool.inflight[rid].sessionId
  {
    hide ConnInv, P.PoolInv, BooksInv;
    DeliverResultInv(SliceOf(s, w, s.conns[w].sink), s.conns[w], s.conns[w].up[0].result.requestId);
    InSlice(s, w, s.conns[w].sink, s.conns[w].up[0].result.requestId);
    OwnedFacts(s, w, s.conns[w].sink);
  }

  lemma AdriftDeliver(s: Sys, w: WorkerId, now: int, rid: ExecId, pending: P.Pending)
    requires Adrift(s.pool, rid, pending) && SysInv(s)
    ensures Adrift(DoDeliver(s, w, now).pool, rid, pending)
  {
    hide SysInv, Adrift, P.SessionReady, P.CompleteRequest, P.SessionClosed;
    if w in s.conns && s.conns[w].up != [] {
      match s.conns[w].up[0]
      case SessionReady(id, error) => AdriftReady(s.pool, rid, pending, w, id, error, now);
      case ResultOf(r) =>
        ResultOwned(s, w);
        AdriftResult(s.pool, rid, pending, w, r.requestId, now);
      case SessionClosed(id, error, reusable) =>
        if P.SessionClosed(s.pool, w, id, error, reusable, now).Some? {
          ReportOwned(s, w);
          AdriftClosed(s.pool, rid, pending, w, id, error, reusable, now);
        }
      case _ =>
    }
  }

  lemma AdriftRegister(s: Sys, id: SessionId, now: int, rid: ExecId, pending: P.Pending)
    requires Adrift(s.pool, rid, pending) && rid in s.usedCommands
    ensures Adrift(DoRegister(s, id, now).pool, rid, pending)
  {
  }

  lemma AdriftCreate(s: Sys, id: SessionId, profile: string, inputs: P.Inputs, now: int, rid: ExecId,
                     pending: P.Pending)
    requires Adrift(s.pool, rid, pending) && pending.sessionId in s.usedSessions
    ensures Adrift(DoCreate(s, id, profile, inputs, now).pool, rid, pending)
  {
  }

  lemma AdriftDrop(s: Sys, w: WorkerId, oom: bool, now: int, rid: ExecId, pending: P.Pending)
    requires Adrift(s.pool, rid, pending)
    ensures w != pending.workerId ==> Adrift(DoTake(s, w, oom).pool, rid, pending)
    ensures Adrift(DoForget(s, w, now).pool, rid, pending)
  {
    hide P.DropRest, Tasks;
    ForgetOwners(s.pool, w, now);
  }

  lemma AdriftUsed(s: Sys, rid: ExecId, pending: P.Pending)
    requires Adrift(s.pool, rid, pending) && SysInv(s)
    ensures rid in s.usedCommands && pending.sessionId in s.usedSessions
  {
    hide ConnInv, P.PoolInv, SinksInv, HoldersInv, InflightHome, LinksInv;
  }

  lemma AdriftStep(s: Sys, l: Label, rid: ExecId, pending: P.Pending)
    requires Adrift(s.pool, rid, pending) && SysInv(s) && !(l.TakeDropped? && l.w == pending.workerId)
    ensures Adrift(Next(s, l).pool, rid, pending)
  {
    hide Next, SysInv, Adrift, OwnersAside, DoDeliver, DoRegister, DoTake, DoForget, DoCreate;
    AdriftUsed(s, rid, pending);
    NextAtPool(s, l);
    match l
    case Deliver(w, now) => AdriftDeliver(s, w, now, rid, pending);
    case RegisterCommand(id, now) => AdriftRegister(s, id, now, rid, pending);
    case TakeDropped(w, oom) => AdriftDrop(s, w, oom, 0, rid, pending);
    case ForgetDropped(w, now) => AdriftDrop(s, w, false, now, rid, pending);
    case CreateSession(id, profile, inputs, now) => AdriftCreate(s, id, profile, inputs, now, rid, pending);
    case _ =>
      AllLabels(l);
      AsideOwners(s, l);
      AdriftSame(s.pool, Next(s, l).pool, rid, pending);
  }

  lemma AdriftSame(p: P.Pool, p': P.Pool, rid: ExecId, pending: P.Pending)
    requires Adrift(p, rid, pending) && SameOwners(p, p')
    ensures Adrift(p', rid, pending)
  {
  }

  lemma {:induction false} AdriftRun(s: Sys, labels: seq<Label>, rid: ExecId, pending: P.Pending)
    requires Adrift(s.pool, rid, pending) && SysInv(s)
    requires forall i :: 0 <= i < |labels| ==> !(labels[i].TakeDropped? && labels[i].w == pending.workerId)
    ensures Adrift(Exec(s, labels).pool, rid, pending)
    decreases |labels|
  {
    hide Adrift, SysInv, Next;
    if labels != [] {
      AdriftStep(s, labels[0], rid, pending);
      NextPreserves(s, labels[0]);
      assert forall i :: 0 <= i < |labels[1..]| ==> labels[1..][i] == labels[i + 1];
      AdriftRun(Next(s, labels[0]), labels[1..], rid, pending);
    }
  }

  /** A stranded command's handle says Running until a worker of the same id is dropped again. */
  lemma StrandedRuns(labels: seq<Label>, w: WorkerId, now: int, more: seq<Label>, rid: ExecId)
    requires var s := Exec(INIT, labels);
             P.Owned(s.pool) && w in s.dropping && rid in s.pool.inflight && s.pool.inflight[rid].workerId == w
    requires forall i :: 0 <= i < |more| ==> !(more[i].TakeDropped? && more[i].w == w)
    ensures O.IsRunning(Exec(INIT, labels + [ForgetDropped(w, now)] + more).pool, rid)
  {
    hide Adrift, SysInv, Next, P.Owned;
    var s, l := Exec(INIT, labels), ForgetDropped(w, now);
    DropStrands(labels, w, now, rid);
    Reachable(labels);
    NextPreserves(s, l);
    AdriftRun(Next(s, l), more, rid, s.pool.inflight[rid]);
    ExecConcat(INIT, labels, [l]);
    LastOne(s, l);
    ExecConcat(INIT, labels + [l], more);
    assert rid in Exec(Next(s, l), more).pool.inflight by {
      AdriftIn(Exec(Next(s, l), more).pool, rid, s.pool.inflight[rid]);
    }
    O.OutcomeAccounting(labels + [l] + more, rid);
  }

  lemma AdriftIn(p: P.Pool, rid: ExecId, pending: P.Pending)
    requires Adrift(p, rid, pending)
    ensures rid in p.inflight
  {
  }

  // A run in which a submit falls between the two halves of a drop.

  const W1 := WorkerId("w")
  const S1 := SessionId("s")
  const C1 := ExecId("c")
  const NO_INPUTS := P.Inputs("/", map[], None)

  const REC := P.NewSession(P.Entry(W1, "p", 0), NO_INPUTS, 0)
  const OPEN := SessionOpen(S1, "/", map[], None)
  const SCHED := S.Start(S.Shell("/", map[]), None, None)

  const HELLO := INIT.(pool := P.EMPTY.(idle := [P.Entry(W1, "p", 0)], liveness := map[W1 := "p"]),
                       conns := map[W1 := Conn(0, [], [], Awaiting)], sinks := 1)

  const CREATED := HELLO.(pool := P.EMPTY.(liveness := map[W1 := "p"], workerSessions := map[W1 := S1],
                                           sessions := map[S1 := REC]),
                          usedSessions := {S1}, unsent := map[S1 := (W1, 0, OPEN)])

  const SENT := CREATED.(unsent := map[], conns := map[W1 := Conn(0, [OPEN], [], Awaiting)])

  const READY := SENT.(conns := map[W1 := Conn(0, [], [SessionReady(S1, None)], Serving(S1, SCHED))])

  const ACTIVE := READY.(conns := map[W1 := Conn(0, [], [], Serving(S1, SCHED))],
                         pool := CREATED.pool.(sessions := map[S1 := REC.(state := P.Active, openWaiter := false)]))

  const SUBMIT := Execute(C1, "true", "/", map[], None)

  const LOCKED := ACTIVE.(holders := map[S1 := Submitting(SUBMIT, Parallel, W1, 0)])

  lemma HelloStep()
    ensures Next(INIT, Hello(W1, "p")) == HELLO
  {
    hide Next;
    NextAtPool(INIT, Hello(W1, "p"));
  }

  lemma CreateStep()
    ensures Next(HELLO, CreateSession(S1, "p", NO_INPUTS, 0)) == CREATED
  {
    hide Next;
    NextAtPool(HELLO, CreateSession(S1, "p", NO_INPUTS, 0));
    var p := HELLO.pool;
    assert p.liveness[W1] == "p" && "p" in p.liveness.Values;
    assert P.RemoveAt(p.idle, 0) == [];
  }

  lemma OpenStep()
    ensures Next(CREATED, SendOpen(S1, true)) == SENT
  {
    assert [] + [OPEN] == [OPEN];
  }

  lemma ReceiveStep()
    ensures Next(SENT, ReceiveFrame(W1, None, None)) == READY
  {
    hide S.Start;
    assert Receive(SENT.conns[W1], None, None) == READY.conns[W1] by {
      assert [OPEN][1..] == [];
    }
  }

  lemma ReadyStep()
    ensures Next(READY, Deliver(W1, 0)) == ACTIVE
  {
    hide Next;
    NextAtPool(READY, Deliver(W1, 0));
    hide S.Start;
    assert [SessionReady(S1, None)][1..] == [];
  }

  lemma LockStep()
    ensures Next(ACTIVE, BeginSubmit(S1, C1, "true", Parallel)) == LOCKED
  {
    hide S.Start;
  }

  const TAKEN := LOCKED.(conns := map[], dropping := multiset{W1})

  lemma TakeStep()
    ensures Next(LOCKED, TakeDropped(W1, false)) == TAKEN
  {
    hide Next;
    NextAtPool(LOCKED, TakeDropped(W1, false));
    hide S.Start;
    assert P.OnWorker(map[], W1) == {};
    assert LOCKED.pool.inflight - {} == map[];
    assert Tasks({}, P.FromDrop(false)) == multiset{};
    assert LOCKED.conns - {W1} == map[];
  }

  lemma RaceStep()
    ensures var s := Next(TAKEN, RegisterCommand(S1, 0));
            && W1 in s.dropping && C1 in s.pool.inflight && s.pool.inflight[C1].workerId == W1
            && P.Owned(s.pool)
  {
    hide Next, S.Start;
    NextAtPool(TAKEN, RegisterCommand(S1, 0));
    assert P.Refusal(TAKEN.pool, S1, Parallel).None?;
    var s := Next(TAKEN, RegisterCommand(S1, 0));
    assert s.pool.inflight == map[C1 := P.Pending(W1, 0, S1, Parallel)];
    assert s.pool.workerSessions == map[W1 := S1];
  }

  const RACE: seq<Label> := [
    Hello(W1, "p"), CreateSession(S1, "p", NO_INPUTS, 0), SendOpen(S1, true), ReceiveFrame(W1, None, None),
    Deliver(W1, 0),
    BeginSubmit(S1, C1, "true", Parallel), TakeDropped(W1, false), RegisterCommand(S1, 0)]

  /** One step at the head of a run. */
  lemma Unroll(s: Sys, labels: seq<Label>)
    requires labels != []
    ensures Exec(s, labels) == Exec(Next(s, labels[0]), labels[1..])
  {
  }

  lemma RaceHeads()
    ensures Next(INIT, RACE[0]) == HELLO && Next(HELLO, RACE[1]) == CREATED && Next(CREATED, RACE[2]) == SENT
    ensures Next(SENT, RACE[3]) == READY && Next(READY, RACE[4]) == ACTIVE && Next(ACTIVE, RACE[5]) == LOCKED
    ensures Next(LOCKED, RACE[6]) == TAKEN && RACE[7] == RegisterCommand(S1, 0) && |RACE| == 8
  {
    hide Next;
    HelloStep();
    CreateStep();
    OpenStep();
    ReceiveStep();
    ReadyStep();
    LockStep();
    TakeStep();
  }

  lemma RaceRuns()
    ensures Exec(INIT, RACE) == Next(TAKEN, RegisterCommand(S1, 0))
  {
    hide Next, Exec;
    RaceHeads();
    Unroll(INIT, RACE);
    Unroll(HELLO, RACE[1..]);
    Unroll(CREATED, RACE[2..]);
    Unroll(SENT, RACE[3..]);
    Unroll(READY, RACE[4..]);
    Unroll(ACTIVE, RACE[5..]);
    Unroll(LOCKED, RACE[6..]);
    assert RACE[7..] == [RegisterCommand(S1, 0)];
    LastOne(TAKEN, RegisterCommand(S1, 0));
  }

  /** The race happens: this run leaves a command Running on a worker that is
      gone, and it stays so whatever follows, short of a second drop of that worker. */
  lemma RaceStrands(now: int, more: seq<Label>)
    requires forall i :: 0 <= i < |more| ==> !(more[i].TakeDropped? && more[i].w == W1)
    ensures O.IsRunning(Exec(INIT, RACE + [ForgetDropped(W1, now)] + more).pool, C1)
  {
    hide Next, Exec, P.Owned;
    RaceRuns();
    RaceStep();
    StrandedRuns(RACE, W1, now, more, C1);
  }
}
