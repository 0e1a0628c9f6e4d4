/** How a session's record, its send lock and its counts move over a run: states
    only go forward, nothing is sent after the close, every closer is woken, the
    stateful count is exact, and no command is left on a forgotten worker. */
module SessionRuns {
  import opened Wrappers
  import opened Protocol
  import P = ServerPool
  import opened Link
  import opened System
  import opened Composition
  import O = Outcomes

  // -------------------------------------------------------------- record states

  function Rank(state: P.SessionState): nat {
    match state
    case Opening => 0
    case Active => 1
    case Closing => 2
    case _ => 3
  }

  /** A session keeps its worker, and its state only goes forward. */
  predicate Advances(was: P.Session, rec: P.Session) {
    && rec.workerId == was.workerId && rec.sink == was.sink && rec.profile == was.profile
    && Rank(was.state) <= Rank(rec.state)
  }

  /** Records are replaced by successors or forgotten; new ones open under fresh ids. */
  ghost predicate Forward(s: Sys, s': Sys) {
    && s.usedSessions <= s'.usedSessions
    && (forall id :: id in s'.pool.sessions ==>
          if id in s.pool.sessions then Advances(s.pool.sessions[id], s'.pool.sessions[id])
          else id !in s.usedSessions && s'.pool.sessions[id].state.Opening?)
  }

  /** One record replaced, or none. */
  ghost predicate OneRecord(p: P.Pool, p': P.Pool, id: SessionId) {
    || p'.sessions == p.sessions
    || (id in p.sessions && id in p'.sessions && p'.sessions == p.sessions[id := p'.sessions[id]]
        && Advances(p.sessions[id], p'.sessions[id]))
  }

  lemma OneForward(s: Sys, s': Sys, id: SessionId)
    requires OneRecord(s.pool, s'.pool, id) && s'.usedSessions == s.usedSessions
    ensures Forward(s, s')
  {
  }

  lemma OpenedRecords(p: P.Pool, w: WorkerId, id: SessionId, error: Option<string>, now: int)
    ensures OneRecord(p, P.SessionReady(p, w, id, error, now), id)
    ensures P.Created(p, id, now).Ok? ==> OneRecord(p, P.Created(p, id, now).value, id)
    ensures OneRecord(p, P.Touch(p, id, now), id)
  {
  }

  lemma CommandRecords(p: P.Pool, id: SessionId, rid: ExecId, mode: Mode, w: WorkerId, sink: nat, now: int)
    ensures P.Submit(p, id, rid, mode, w, sink, now).Ok? ==>
              OneRecord(p, P.Submit(p, id, rid, mode, w, sink, now).value, id)
    ensures rid in p.inflight ==> OneRecord(p, P.CompleteRequest(p, rid, now), p.inflight[rid].sessionId)
  {
  }

  lemma TerminalRecords(p: P.Pool, id: SessionId, terminal: nat, now: int)
    ensures P.Attach(p, id, terminal, now).Ok? ==> OneRecord(p, P.Attach(p, id, terminal, now).value, id)
    ensures OneRecord(p, P.Detach(p, id, terminal, now), id)
  {
  }

  lemma EndRecords(p: P.Pool, w: WorkerId, id: SessionId, error: Option<string>, reusable: bool, now: int)
    ensures P.SessionClosed(p, w, id, error, reusable, now).Some? ==>
              OneRecord(p, P.SessionClosed(p, w, id, error, reusable, now).value.pool, id)
    ensures OneRecord(p, P.DropRest(p, w, now).0, if w in p.workerSessions then p.workerSessions[w] else id)
  {
  }

  lemma DeliverForward(s: Sys, w: WorkerId, now: int)
    ensures Forward(s, DoDeliver(s, w, now))
  {
    hide P.SessionReady, P.CompleteRequest, P.SessionClosed;
    if w in s.conns && s.conns[w].up != [] {
      var s' := DoDeliver(s, w, now);
      match s.conns[w].up[0]
      case SessionReady(id, error) =>
        OpenedRecords(s.pool, w, id, error, now);
        OneForward(s, s', id);
      case ResultOf(r) =>
        CommandRecords(s.pool, SessionId(""), r.requestId, Stateful, w, 0, now);
        ResultForward(s, s', r.requestId, now);
      case SessionClosed(id, error, reusable) =>
        EndRecords(s.pool, w, id, error, reusable, now);
        OneForward(s, s', id);
      case _ =>
    }
  }

  lemma ResultForward(s: Sys, s': Sys, rid: ExecId, now: int)
    requires s'.pool == P.CompleteRequest(s.pool, rid, now) && s'.usedSessions == s.usedSessions
    ensures Forward(s, s')
  {
    CommandRecords(s.pool, SessionId(""), rid, Stateful, WorkerId(""), 0, now);
    if rid in s.pool.inflight {
      OneForward(s, s', s.pool.inflight[rid].sessionId);
    }
  }

  lemma RegisterForward(s: Sys, id: SessionId, now: int)
    ensures Forward(s, DoRegister(s, id, now))
  {
    hide P.Submit;
    if id in s.holders && s.holders[id].Submitting? {
      var h := s.holders[id];
      CommandRecords(s.pool, id, h.execute.requestId, h.mode, h.worker, h.sink, now);
      OneForward(s, DoRegister(s, id, now), id);
    }
  }

  lemma PoolForward(s: Sys, l: Label)
    requires PoolOnly(l)
    ensures Forward(s, Next(s, l))
  {
    hide Next, P.Created, P.Touch, P.Attach, P.Detach;
    PoolOnlyStep(s, l);
    if l.ReplyCreated? || l.Status? {
      OpenedRecords(s.pool, WorkerId(""), l.id, None, l.now);
      OneForward(s, Next(s, l), l.id);
    } else if l.AttachTerminal? || l.DetachTerminal? {
      TerminalRecords(s.pool, l.id, l.terminal, l.now);
      OneForward(s, Next(s, l), l.id);
    }
  }

  lemma CloseForward(s: Sys, l: Label)
    requires l.BeginClose?
    ensures Forward(s, Next(s, l))
  {
    hide DoBeginClose;
    if l.id in s.holders {
      O.HeldClose(s, l);
    } else {
      BeginCloseShape(s, l.id, l.gate, l.waiter);
      OneForward(s, Next(s, l), l.id);
    }
  }

  lemma DropForward(s: Sys, w: WorkerId, now: int)
    ensures Forward(s, DoForget(s, w, now))
  {
    if w in s.dropping {
      hide P.DropRest;
      EndRecords(s.pool, w, SessionId(""), None, false, now);
      OneForward(s, DoForget(s, w, now),
                 if w in s.pool.workerSessions then s.pool.workerSessions[w] else SessionId(""));
    }
  }

  lemma HelloForward(s: Sys, w: WorkerId, profile: string)
    ensures Forward(s, DoHello(s, w, profile))
  {
  }

  lemma SettleForward(s: Sys, rid: ExecId, v: P.Verdict, now: int)
    ensures Forward(s, DoSettle(s, rid, v, now))
  {
    hide P.Settle;
  }

  lemma TakeForward(s: Sys, w: WorkerId, oom: bool)
    ensures Forward(s, DoTake(s, w, oom))
  {
    hide Tasks, P.OnWorker;
  }

  lemma CreateForward(s: Sys, id: SessionId, profile: string, inputs: P.Inputs, now: int)
    requires s.pool.sessions.Keys <= s.usedSessions
    ensures Forward(s, DoCreate(s, id, profile, inputs, now))
  {
  }

  lemma LinkForward(s: Sys, l: Label)
    requires AtServer(l) || AtWorker(l)
    ensures Next(s, l).pool == s.pool && Next(s, l).usedSessions == s.usedSessions && Next(s, l).dropping == s.dropping
    ensures AtWorker(l) ==> Next(s, l).holders == s.holders && Next(s, l).log == s.log
    ensures Forward(s, Next(s, l))
  {
    hide Forward;
    if AtServer(l) {
      ServerKeepsPool(s, l);
    } else {
      WorkerKeepsPool(s, l);
    }
    SamePool(s, Next(s, l));
  }

  lemma SamePool(s: Sys, s': Sys)
    requires s'.pool == s.pool && s'.usedSessions == s.usedSessions
    ensures Forward(s, s')
  {
  }

  lemma StepForward(s: Sys, l: Label)
    requires s.pool.sessions.Keys <= s.usedSessions
    ensures Forward(s, Next(s, l))
  {
    hide Next, Forward, DoDeliver, DoRegister, DoTake, DoForget, DoHello, DoCreate, DoSettle;
    NextAtPool(s, l);
    match l
    case Deliver(w, now) => DeliverForward(s, w, now);
    case RegisterCommand(id, now) => RegisterForward(s, id, now);
    case BeginClose(_, _, _) => CloseForward(s, l);
    case ForgetDropped(w, now) => DropForward(s, w, now);
    case Hello(w, profile) => HelloForward(s, w, profile);
    case SettleHandle(rid, v, now) => SettleForward(s, rid, v, now);
    case TakeDropped(w, oom) => TakeForward(s, w, oom);
    case CreateSession(id, profile, inputs, now) => CreateForward(s, id, profile, inputs, now);
    case _ => if PoolOnly(l) { PoolForward(s, l); } else { LinkForward(s, l); }
  }

  /** Whatever happens, a session stays on its worker and its state never goes back. */
  lemma SessionsGoForward(labels: seq<Label>, l: Label, id: SessionId)
    ensures var s := Exec(INIT, labels);
            var s' := Next(s, l);
            && (id in s.pool.sessions && id in s'.pool.sessions ==> Advances(s.pool.sessions[id], s'.pool.sessions[id]))
            && (id in s.usedSessions && id !in s.pool.sessions ==> id !in s'.pool.sessions)
  {
    hide ConnInv, P.PoolInv, Next;
    Reachable(labels);
    StepForward(Exec(INIT, labels), l);
  }

  // ------------------------------------------------------------ order on the wire

  predicate CanSend(p: P.Pool, id: SessionId) {
    id in p.sessions && (p.sessions[id].state.Opening? || p.sessions[id].state.Active?)
  }

  /** Nothing follows a close. */
  predicate CloseLast(log: seq<Sent>) { forall i :: 0 <= i < |log| - 1 ==> log[i].RunSent? }

  /** After the close no one can write to the session: its state admits no new
      command, and no lock holder is about to write a registered one. */
  ghost predicate LogInv(s: Sys) {
    && s.log.Keys <= s.usedSessions
    && (forall id :: id in s.log ==> CloseLast(s.log[id]))
    && (forall id :: id in s.log && CloseSent in s.log[id] ==>
          !CanSend(s.pool, id) && (id in s.holders ==> s.holders[id].Submitting?))
    && (forall id :: id in s.holders && s.holders[id].Closer? ==> !CanSend(s.pool, id))
  }

  lemma LogKept(s: Sys, s': Sys)
    requires LogInv(s) && Forward(s, s') && s.holders.Keys <= s.usedSessions
    requires s'.log == s.log && s'.holders == s.holders
    ensures LogInv(s')
  {
    forall id | id in s.usedSessions && !CanSend(s.pool, id) ensures !CanSend(s'.pool, id) {
      if id in s'.pool.sessions {
        assert id in s.pool.sessions && Advances(s.pool.sessions[id], s'.pool.sessions[id]);
      }
    }
  }

  lemma RegisterSends(s: Sys, id: SessionId, now: int)
    ensures var s' := DoRegister(s, id, now);
            && s'.log == s.log && s'.usedSessions == s.usedSessions
            && (s'.holders == s.holders
                || (id in s.holders && s.holders[id].Submitting? && s'.holders == s.holders - {id})
                || (id in s'.holders && s'.holders[id].Registered? && CanSend(s.pool, id)
                    && s'.holders == s.holders[id := s'.holders[id]]))
            && (s'.pool.sessions == s.pool.sessions
                || (id in s.pool.sessions && id in s'.pool.sessions
                    && s'.pool.sessions == s.pool.sessions[id := s'.pool.sessions[id]]
                    && s'.pool.sessions[id].state == s.pool.sessions[id].state))
  {
  }

  lemma RegisterLog(s: Sys, id: SessionId, now: int)
    requires LogInv(s)
    ensures LogInv(DoRegister(s, id, now))
  {
    hide DoRegister, CloseLast;
    RegisterSends(s, id, now);
    var s' := DoRegister(s, id, now);
    forall i ensures CanSend(s'.pool, i) == CanSend(s.pool, i) {
    }
  }

  lemma BeginCloseLog(s: Sys, id: SessionId, gate: Option<P.Gate>, waiter: nat)
    requires LogInv(s)
    ensures LogInv(DoBeginClose(s, id, gate, waiter))
  {
    hide DoBeginClose, CloseLast;
    if id in s.holders {
      O.HeldClose(s, BeginClose(id, gate, waiter));
      NextAtPool(s, BeginClose(id, gate, waiter));
    } else {
      var s' := DoBeginClose(s, id, gate, waiter);
      BeginCloseShape(s, id, gate, waiter);
      FirstCloser(s, id, gate, waiter);
      forall i ensures CanSend(s'.pool, i) ==> CanSend(s.pool, i) {
      }
    }
  }

  /** Only the closer that finds the session open takes the close upon itself. */
  lemma FirstCloser(s: Sys, id: SessionId, gate: Option<P.Gate>, waiter: nat)
    requires id !in s.holders
    ensures var s' := DoBeginClose(s, id, gate, waiter);
            s'.holders != s.holders ==> CanSend(s.pool, id) && !CanSend(s'.pool, id)
  {
    hide P.Close;
    ClosedFirst(s.pool, id, gate, waiter);
  }

  lemma ClosedFirst(p: P.Pool, id: SessionId, gate: Option<P.Gate>, waiter: nat)
    ensures var r := P.Close(p, id, gate, waiter);
            r.Ok? && r.value.1 == P.Wait(true) ==> CanSend(p, id) && !CanSend(r.value.0, id)
  {
    hide P.Expired;
  }

  lemma Appended(log: seq<Sent>, e: Sent)
    requires CloseSent !in log
    ensures CloseLast(log + [e])
  {
    forall i | 0 <= i < |log| ensures (log + [e])[i].RunSent? {
      assert log[i] in log;
    }
  }

  lemma SendLog(s: Sys, l: Label)
    requires LogInv(s) && s.holders.Keys <= s.usedSessions && AtServer(l)
    ensures LogInv(Next(s, l))
  {
    hide Write, CloseLast, LogInv;
    if l.SendRun? {
      SendRunLog(s, l.id, l.ok);
    } else if l.SendClose? {
      SendCloseLog(s, l.id, l.ok);
    } else if l.BeginSubmit? {
      BeginSubmitLog(s, l);
    } else {
      LockLog(s, l);
    }
  }

  lemma SendRunLog(s: Sys, id: SessionId, ok: bool)
    requires LogInv(s) && s.holders.Keys <= s.usedSessions
    ensures LogInv(DoSendRun(s, id, ok))
  {
    hide Write, CloseLast;
    if id in s.holders && s.holders[id].Registered? {
      var h := s.holders[id];
      WriteKeeps(s.(holders := s.holders - {id}, log := s.log[id := LogOf(s, id) + [RunSent]]),
                 h.worker, h.sink, SessionRun(id, h.execute, h.mode), ok);
      Appended(LogOf(s, id), RunSent);
    }
  }

  lemma SendCloseLog(s: Sys, id: SessionId, ok: bool)
    requires LogInv(s) && s.holders.Keys <= s.usedSessions
    ensures LogInv(DoSendClose(s, id, ok))
  {
    hide Write, CloseLast;
    if id in s.holders && s.holders[id].Closer? {
      var h := s.holders[id];
      WriteKeeps(s.(holders := s.holders - {id}, log := s.log[id := LogOf(s, id) + [CloseSent]]),
                 h.worker, h.sink, SessionClose(id), ok);
      Appended(LogOf(s, id), CloseSent);
    }
  }

  lemma BeginSubmitLog(s: Sys, l: Label)
    requires LogInv(s) && l.BeginSubmit?
    ensures LogInv(Next(s, l))
  {
    hide CloseLast;
  }

  lemma LockLog(s: Sys, l: Label)
    requires LogInv(s) && AtServer(l) && !l.SendRun? && !l.SendClose? && !l.BeginSubmit?
    ensures LogInv(Next(s, l))
  {
    hide CloseLast;
    if l.SendOpen? {
      hide Write;
      if l.id in s.unsent {
        WriteKeeps(s.(unsent := s.unsent - {l.id}), s.unsent[l.id].0, s.unsent[l.id].1, s.unsent[l.id].2, l.ok);
      }
    }
  }

  lemma StepLog(s: Sys, l: Label)
    requires LogInv(s) && UsedInv(s)
    ensures LogInv(Next(s, l))
  {
    hide LogInv, Forward, Next;
    StepForward(s, l);
    if l.RegisterCommand? {
      NextAtPool(s, l);
      RegisterLog(s, l.id, l.now);
    } else if l.BeginClose? {
      NextAtPool(s, l);
      BeginCloseLog(s, l.id, l.gate, l.waiter);
    } else if AtServer(l) {
      SendLog(s, l);
    } else {
      LogSame(s, l);
      LogKept(s, Next(s, l));
    }
  }

  lemma LogSame(s: Sys, l: Label)
    requires !l.RegisterCommand? && !l.BeginClose? && !AtServer(l)
    ensures Next(s, l).log == s.log && Next(s, l).holders == s.holders
  {
    hide Next, P.SessionReady, P.CompleteRequest, P.SessionClosed, P.DropTake, P.DropRest, P.Create, P.Register,
         P.Finalize, Tasks;
    NextAtPool(s, l);
    if AtWorker(l) {
      WorkerKeepsPool(s, l);
    } else if PoolOnly(l) {
      PoolOnlyStep(s, l);
    }
  }

  lemma {:induction false} LogRun(s: Sys, labels: seq<Label>)
    requires LogInv(s) && SysInv(s)
    ensures LogInv(Exec(s, labels))
    decreases |labels|
  {
    hide LogInv, ConnInv, P.PoolInv, Next;
    if labels != [] {
      StepLog(s, labels[0]);
      NextPreserves(s, labels[0]);
      LogRun(Next(s, labels[0]), labels[1..]);
    }
  }

  /** However submitters, closers and the sweeper interleave, a session's frames
      from submit and close are some commands and then at most one close. */
  lemma WireOrder(labels: seq<Label>, id: SessionId)
    ensures var log := LogOf(Exec(INIT, labels), id);
            forall i :: 0 <= i < |log| - 1 ==> log[i].RunSent?
    ensures var s := Exec(INIT, labels);
            CloseSent in LogOf(s, id) ==>
              && (id in s.pool.sessions ==> Rank(s.pool.sessions[id].state) >= 2)
              && (id in s.holders ==> s.holders[id].Submitting?)
  {
    hide SysInv, Next;
    assert LogInv(INIT);
    O.InitRun();
    LogRun(INIT, labels);
  }

  // -------------------------------------------------------------------- closers

  /** The closers of a session that have not been woken. */
  function Waiters(p: P.Pool, id: SessionId): seq<nat> { if id in p.sessions then p.sessions[id].closed else [] }

  /** The closer a step adds to a session's waiters. */
  function AskedBy(s: Sys, l: Label, id: SessionId): seq<nat> {
    if l.BeginClose? && l.id == id && id !in s.holders && P.Close(s.pool, id, l.gate, l.waiter).Ok?
       && P.Close(s.pool, id, l.gate, l.waiter).value.1.Wait?
    then [l.waiter] else []
  }

  /** The closers of a session a step wakes. */
  function WokenBy(s: Sys, l: Label, id: SessionId): seq<nat> {
    if l.Deliver? && l.w in s.conns && s.conns[l.w].up != [] && s.conns[l.w].up[0].SessionClosed?
       && s.conns[l.w].up[0].sessionId == id
    then
      var f := s.conns[l.w].up[0];
      var closed := P.SessionClosed(s.pool, l.w, id, f.error, f.reusable, l.now);
      if closed.Some? then closed.value.waiters else []
    else if l.ForgetDropped? && l.w in s.dropping && l.w in s.pool.workerSessions && s.pool.workerSessions[l.w] == id
    then P.DropRest(s.pool, l.w, l.now).1
    else []
  }

  ghost predicate SameWaiters(p: P.Pool, p': P.Pool) { forall id :: Waiters(p', id) == Waiters(p, id) }

  lemma KeptWaiters(p: P.Pool, w: WorkerId, id: SessionId, error: Option<string>, now: int)
    ensures SameWaiters(p, P.SessionReady(p, w, id, error, now))
    ensures P.Created(p, id, now).Ok? ==> SameWaiters(p, P.Created(p, id, now).value)
    ensures SameWaiters(p, P.Touch(p, id, now))
  {
  }

  lemma ResultWaiters(p: P.Pool, rid: ExecId, now: int)
    ensures SameWaiters(p, P.CompleteRequest(p, rid, now))
  {
  }

  lemma TerminalWaiters(p: P.Pool, id: SessionId, n: nat, now: int)
    ensures P.Attach(p, id, n, now).Ok? ==> SameWaiters(p, P.Attach(p, id, n, now).value)
    ensures SameWaiters(p, P.Detach(p, id, n, now))
  {
  }

  lemma ClosedWaiters(p: P.Pool, w: WorkerId, id: SessionId, error: Option<string>, reusable: bool, now: int,
                      i: SessionId)
    ensures P.SessionClosed(p, w, id, error, reusable, now).Some? ==>
              var r := P.SessionClosed(p, w, id, error, reusable, now).value;
              Waiters(p, i) == (if i == id then r.waiters else []) + Waiters(r.pool, i)
  {
  }

  lemma SubmitWaiters(s: Sys, id: SessionId, now: int)
    ensures SameWaiters(s.pool, DoRegister(s, id, now).pool)
  {
  }

  lemma DeliverWaiters(s: Sys, l: Label, id: SessionId)
    requires l.Deliver?
    ensures Waiters(s.pool, id) == WokenBy(s, l, id) + Waiters(Next(s, l).pool, id)
  {
    hide P.SessionReady, P.CompleteRequest, P.SessionClosed, Waiters;
    if l.w in s.conns && s.conns[l.w].up != [] {
      match s.conns[l.w].up[0]
      case SessionReady(i, error) => KeptWaiters(s.pool, l.w, i, error, l.now);
      case ResultOf(r) => ResultWaiters(s.pool, r.requestId, l.now);
      case SessionClosed(i, error, reusable) => ClosedWaiters(s.pool, l.w, i, error, reusable, l.now, id);
      case _ =>
    }
  }

  lemma CloseWaiters(s: Sys, l: Label, id: SessionId)
    requires l.BeginClose?
    ensures Waiters(s.pool, id) + AskedBy(s, l, id) == Waiters(Next(s, l).pool, id)
  {
    if l.id in s.holders {
      O.HeldClose(s, l);
    } else {
      hide P.Close;
      AddWaiter(s.pool, l.id, l.gate, l.waiter, id);
    }
  }

  lemma AddWaiter(p: P.Pool, id: SessionId, gate: Option<P.Gate>, waiter: nat, i: SessionId)
    ensures P.Close(p, id, gate, waiter).Ok? ==>
              var (p', step) := P.Close(p, id, gate, waiter).value;
              Waiters(p', i) == Waiters(p, i) + (if i == id && step.Wait? then [waiter] else [])
  {
  }

  lemma DropWaiters(s: Sys, l: Label, id: SessionId)
    requires l.ForgetDropped?
    ensures Waiters(s.pool, id) == WokenBy(s, l, id) + Waiters(Next(s, l).pool, id)
  {
    hide Next, P.Retain;
    NextAtPool(s, l);
  }

  lemma ForgetWaiters(p: P.Pool, age: P.Gate)
    requires P.RecordsInv(p.sessions)
    ensures SameWaiters(p, P.Forget(p, age))
  {
  }

  lemma HelloWaiters(s: Sys, w: WorkerId, profile: string)
    ensures SameWaiters(s.pool, DoHello(s, w, profile).pool)
  {
  }

  lemma SettleWaiters(s: Sys, rid: ExecId, v: P.Verdict, now: int)
    ensures SameWaiters(s.pool, DoSettle(s, rid, v, now).pool)
  {
    hide P.Settle;
  }

  lemma TakeWaiters(s: Sys, w: WorkerId, oom: bool)
    ensures SameWaiters(s.pool, DoTake(s, w, oom).pool)
  {
    hide Tasks, P.OnWorker;
  }

  lemma CreateWaiters(s: Sys, id: SessionId, profile: string, inputs: P.Inputs, now: int)
    requires s.pool.sessions.Keys <= s.usedSessions
    ensures SameWaiters(s.pool, DoCreate(s, id, profile, inputs, now).pool)
  {
  }

  lemma PoolWaiters(s: Sys, l: Label)
    requires PoolOnly(l) && P.RecordsInv(s.pool.sessions)
    ensures SameWaiters(s.pool, Next(s, l).pool)
  {
    hide Next, P.Created, P.Touch, P.Attach, P.Detach, P.Forget, P.RecordsInv, SameWaiters;
    PoolOnlyStep(s, l);
    SameSelf(s.pool);
    if l.ReplyCreated? || l.Status? {
      KeptWaiters(s.pool, WorkerId(""), l.id, None, l.now);
    } else if l.AttachTerminal? || l.DetachTerminal? {
      TerminalWaiters(s.pool, l.id, l.terminal, l.now);
    } else if l.ForgetSessions? {
      ForgetWaiters(s.pool, l.age);
    } else {
      HandleWaiters(s.pool, l);
    }
  }

  lemma HandleWaiters(p: P.Pool, l: Label)
    requires l.CancelCommand? || l.SpoolError? || l.PurgeHandle?
    ensures SameWaiters(p, PoolStep(p, l))
  {
  }

  lemma SameSelf(p: P.Pool)
    ensures SameWaiters(p, p)
  {
  }

  lemma StepWaiters(s: Sys, l: Label, id: SessionId)
    requires SysInv(s)
    ensures Waiters(s.pool, id) + AskedBy(s, l, id) == WokenBy(s, l, id) + Waiters(Next(s, l).pool, id)
  {
    hide Next, SysInv, Waiters, P.Close, P.SessionClosed, P.DropRest;
    if l.Deliver? {
      DeliverWaiters(s, l, id);
    } else if l.BeginClose? {
      CloseWaiters(s, l, id);
    } else if l.ForgetDropped? {
      DropWaiters(s, l, id);
    } else {
      hide SameWaiters;
      UsedSessions(s);
      QuietWaiters(s, l);
      OneWaiter(s.pool, Next(s, l).pool, id);
    }
  }

  lemma QuietWaiters(s: Sys, l: Label)
    requires s.pool.sessions.Keys <= s.usedSessions && P.RecordsInv(s.pool.sessions)
    requires !l.Deliver? && !l.BeginClose? && !l.ForgetDropped?
    ensures SameWaiters(s.pool, Next(s, l).pool)
  {
    hide Next, SameWaiters, P.RecordsInv, DoRegister, DoHello, DoSettle, DoTake, DoCreate;
    NextAtPool(s, l);
    match l
    case RegisterCommand(i, now) => SubmitWaiters(s, i, now);
    case Hello(w, profile) => HelloWaiters(s, w, profile);
    case SettleHandle(rid, v, now) => SettleWaiters(s, rid, v, now);
    case TakeDropped(w, oom) => TakeWaiters(s, w, oom);
    case CreateSession(i, profile, inputs, now) => CreateWaiters(s, i, profile, inputs, now);
    case _ =>
      if PoolOnly(l) {
        PoolWaiters(s, l);
      } else {
        LinkForward(s, l);
        SameSelf(s.pool);
      }
  }

  lemma UsedSessions(s: Sys)
    requires SysInv(s)
    ensures s.pool.sessions.Keys <= s.usedSessions && P.RecordsInv(s.pool.sessions)
  {
    hide LinksInv, SinksInv, HoldersInv, InflightHome, P.IdleInv, P.OwnerInv, P.CountInv, P.InflightInv;
  }

  lemma OneWaiter(p: P.Pool, p': P.Pool, id: SessionId)
    requires SameWaiters(p, p')
    ensures Waiters(p', id) == Waiters(p, id)
  {
  }

  function Asked(s: Sys, labels: seq<Label>, id: SessionId): seq<nat>
    decreases |labels|
  {
    if labels == [] then [] else AskedBy(s, labels[0], id) + Asked(Next(s, labels[0]), labels[1..], id)
  }

  function Woken(s: Sys, labels: seq<Label>, id: SessionId): seq<nat>
    decreases |labels|
  {
    if labels == [] then [] else WokenBy(s, labels[0], id) + Woken(Next(s, labels[0]), labels[1..], id)
  }

  lemma {:induction false} WaitersRun(s: Sys, labels: seq<Label>, id: SessionId)
    requires SysInv(s)
    ensures Waiters(s.pool, id) + Asked(s, labels, id) == Woken(s, labels, id) + Waiters(Exec(s, labels).pool, id)
    decreases |labels|
  {
    hide SysInv, Next, AskedBy, WokenBy, Waiters;
    if labels != [] {
      var s1 := Next(s, labels[0]);
      NextPreserves(s, labels[0]);
      StepWaiters(s, labels[0], id);
      WaitersRun(s1, labels[1..], id);
      Shuffle(Waiters(s.pool, id), AskedBy(s, labels[0], id), Asked(s1, labels[1..], id), WokenBy(s, labels[0], id),
              Woken(s1, labels[1..], id), Waiters(s1.pool, id), Waiters(Exec(s, labels).pool, id));
    }
  }

  lemma Shuffle(w0: seq<nat>, a0: seq<nat>, a: seq<nat>, k0: seq<nat>, k: seq<nat>, w1: seq<nat>, w: seq<nat>)
    requires w0 + a0 == k0 + w1 && w1 + a == k + w
    ensures w0 + (a0 + a) == (k0 + k) + w
  {
    assert w0 + (a0 + a) == (w0 + a0) + a == k0 + (w1 + a) == (k0 + k) + w;
  }

  /** Every closer that waits is woken exactly once, in the order they came: over
      any run the closers that asked are those already woken followed by those
      still waiting, and none waits for a session that is over. */
  lemma ClosersWoken(labels: seq<Label>, id: SessionId)
    ensures var p := Exec(INIT, labels).pool;
            && Asked(INIT, labels, id) == Woken(INIT, labels, id) + Waiters(p, id)
            && (Waiters(p, id) != [] ==> p.sessions[id].state.Closing?)
  {
    hide SysInv, Next, AskedBy, WokenBy, Exec;
    O.InitRun();
    WaitersRun(INIT, labels, id);
    ClosersClosing(labels, id);
    assert Waiters(INIT.pool, id) + Asked(INIT, labels, id) == Asked(INIT, labels, id);
  }

  lemma ClosersClosing(labels: seq<Label>, id: SessionId)
    ensures var p := Exec(INIT, labels).pool; Waiters(p, id) != [] ==> p.sessions[id].state.Closing?
  {
    hide P.IdleInv, P.OwnerInv, P.CountInv, P.InflightInv, BooksInv, LinksInv, Exec;
    Reachable(labels);
  }
}
