/** The server and all its workers as one system. A step is one critical section
    of the pool, one frame written or read at either end, or one event inside a
    worker; steps of different operations interleave freely. */
module System {
  import opened Wrappers
  import opened Protocol
  import S = Scheduler
  import P = ServerPool
  import opened Link

  /** What the holder of a session's send lock is about to do: register a checked
      command, write a registered one, or write the close. `worker` and `sink`
      were read from the record when the lock was taken. */
  datatype Holder =
    | Submitting(execute: Execute, mode: Mode, worker: WorkerId, sink: nat)
    | Registered(execute: Execute, mode: Mode, worker: WorkerId, sink: nat)
    | Closer(worker: WorkerId, sink: nat)

  /** Session frames written under the send lock, for the record. */
  datatype Sent = RunSent | CloseSent

  /** `unsent` are the opens not yet written, `finalizers` the settlements still
      to be applied to handles, `dropping` the worker drops between their two
      critical sections. `log`, `usedSessions` and `usedCommands` are history. */
  datatype Sys = Sys(
    pool: P.Pool,
    conns: map<WorkerId, Conn>,
    sinks: nat,
    unsent: map<SessionId, (WorkerId, nat, Frame)>,
    holders: map<SessionId, Holder>,
    dropping: multiset<WorkerId>,
    finalizers: multiset<(ExecId, P.Verdict)>,
    log: map<SessionId, seq<Sent>>,
    usedSessions: set<SessionId>,
    usedCommands: set<ExecId>)

  const INIT := Sys(P.EMPTY, map[], 0, map[], map[], multiset{}, multiset{}, map[], {}, {})

  datatype Label =
    | Hello(w: WorkerId, profile: string)
    | CreateSession(id: SessionId, profile: string, inputs: P.Inputs, now: int)
    | SendOpen(id: SessionId, ok: bool)
    | OpenTimeout(id: SessionId)
    | ReplyCreated(id: SessionId, now: int)
    | Status(id: SessionId, now: int)
    | BeginSubmit(id: SessionId, rid: ExecId, command: string, mode: Mode)
    | SpoolSetupFails(id: SessionId)
    | RegisterCommand(id: SessionId, now: int)
    | SendRun(id: SessionId, ok: bool)
    | BeginClose(id: SessionId, gate: Option<P.Gate>, waiter: nat)
    | SendClose(id: SessionId, ok: bool)
    | CancelCommand(rid: ExecId)
    | SendCancel(rid: ExecId)
    | AttachTerminal(id: SessionId, terminal: nat, now: int)
    | DetachTerminal(id: SessionId, terminal: nat, now: int)
    | Deliver(w: WorkerId, now: int)
    | SettleHandle(rid: ExecId, verdict: P.Verdict, now: int)
    | SpoolError(rid: ExecId)
    | PurgeHandle(rid: ExecId)
    | ForgetSessions(age: P.Gate)
    | TakeDropped(w: WorkerId, oom: bool)
    | ForgetDropped(w: WorkerId, now: int)
    | ReceiveFrame(w: WorkerId, spawnError: Option<string>, home: Option<string>)
    | Work(w: WorkerId, e: S.Event)
    | SendReport(w: WorkerId, resetFailed: bool, exiting: bool, ok: bool)
    | CrashWorker(w: WorkerId)

  // ------------------------------------------------------------------ channels

  predicate Connected(s: Sys, w: WorkerId, sink: nat) { w in s.conns && s.conns[w].sink == sink }

  /** Write a frame to a sink. A sink whose connection is gone swallows it. */
  function Push(s: Sys, w: WorkerId, sink: nat, f: Frame): Sys {
    if Connected(s, w, sink) then s.(conns := s.conns[w := s.conns[w].(down := s.conns[w].down + [f])]) else s
  }

  /** A write failed: the connection delivers nothing more. */
  function Cut(s: Sys, w: WorkerId, sink: nat): Sys {
    if Connected(s, w, sink) then s.(conns := s.conns - {w}) else s
  }

  function Write(s: Sys, w: WorkerId, sink: nat, f: Frame, ok: bool): Sys {
    if ok then Push(s, w, sink, f) else Cut(s, w, sink)
  }

  function Tasks(rids: set<ExecId>, v: P.Verdict): multiset<(ExecId, P.Verdict)> {
    multiset(set rid | rid in rids :: (rid, v))
  }

  function LogOf(s: Sys, id: SessionId): seq<Sent> { if id in s.log then s.log[id] else [] }

  // ------------------------------------------------------------ server steps

  function DoHello(s: Sys, w: WorkerId, profile: string): Sys {
    match P.Register(s.pool, w, profile, s.sinks)
    case None => s
    case Some(pool) => s.(pool := pool, conns := s.conns[w := Conn(s.sinks, [], [], Awaiting)], sinks := s.sinks + 1)
  }

  function DoCreate(s: Sys, id: SessionId, profile: string, inputs: P.Inputs, now: int): Sys {
    if id in s.usedSessions then s
    else
      match P.Create(s.pool, profile, id, inputs, now)
      case Err(_) => s
      case Ok((pool, e)) =>
        s.(pool := pool, usedSessions := s.usedSessions + {id},
           unsent := s.unsent[id := (e.workerId, e.sink,
                                     SessionOpen(id, inputs.workingDir, inputs.env, inputs.dropTo))])
  }

  function DoSendOpen(s: Sys, id: SessionId, ok: bool): Sys {
    if id !in s.unsent then s
    else Write(s.(unsent := s.unsent - {id}), s.unsent[id].0, s.unsent[id].1, s.unsent[id].2, ok)
  }

  function DoOpenTimeout(s: Sys, id: SessionId): Sys {
    if id !in s.pool.sessions then s
    else Push(s, s.pool.sessions[id].workerId, s.pool.sessions[id].sink, SessionClose(id))
  }

  function DoReply(s: Sys, id: SessionId, now: int): Sys {
    match P.Created(s.pool, id, now)
    case Err(_) => s
    case Ok(pool) => s.(pool := pool)
  }

  /** Take the send lock and check the session. */
  function DoBeginSubmit(s: Sys, id: SessionId, rid: ExecId, command: string, mode: Mode): Sys {
    if id in s.holders || P.Refusal(s.pool, id, mode).Some? then s
    else
      var rec := s.pool.sessions[id];
      var execute := Execute(rid, command, rec.inputs.workingDir, rec.inputs.env, rec.inputs.dropTo);
      s.(holders := s.holders[id := Submitting(execute, mode, rec.workerId, rec.sink)])
  }

  /** The capture files could not be created: give the lock back. */
  function DoAbandon(s: Sys, id: SessionId): Sys {
    if id in s.holders && s.holders[id].Submitting? then s.(holders := s.holders - {id}) else s
  }

  /** Check again and register, or give the lock back. Command ids are fresh. */
  function DoRegister(s: Sys, id: SessionId, now: int): Sys {
    if id !in s.holders || !s.holders[id].Submitting? || s.holders[id].execute.requestId in s.usedCommands then s
    else
      var h := s.holders[id];
      match P.Submit(s.pool, id, h.execute.requestId, h.mode, h.worker, h.sink, now)
      case Err(_) => s.(holders := s.holders - {id})
      case Ok(pool) => s.(pool := pool, usedCommands := s.usedCommands + {h.execute.requestId},
                          holders := s.holders[id := Registered(h.execute, h.mode, h.worker, h.sink)])
  }

  function DoSendRun(s: Sys, id: SessionId, ok: bool): Sys {
    if id !in s.holders || !s.holders[id].Registered? then s
    else
      var h := s.holders[id];
      Write(s.(holders := s.holders - {id}, log := s.log[id := LogOf(s, id) + [RunSent]]),
            h.worker, h.sink, SessionRun(id, h.execute, h.mode), ok)
  }

  /** Take the send lock and mark the session; the first closer keeps the lock until it has written. */
  function DoBeginClose(s: Sys, id: SessionId, gate: Option<P.Gate>, waiter: nat): Sys {
    if id in s.holders then s
    else
      match P.Close(s.pool, id, gate, waiter)
      case Err(_) => s
      case Ok((pool, step)) =>
        if step == P.Wait(true)
        then s.(pool := pool,
                holders := s.holders[id := Closer(s.pool.sessions[id].workerId, s.pool.sessions[id].sink)])
        else s.(pool := pool)
  }

  function DoSendClose(s: Sys, id: SessionId, ok: bool): Sys {
    if id !in s.holders || !s.holders[id].Closer? then s
    else
      var h := s.holders[id];
      Write(s.(holders := s.holders - {id}, log := s.log[id := LogOf(s, id) + [CloseSent]]),
            h.worker, h.sink, SessionClose(id), ok)
  }

  function DoSendCancel(s: Sys, rid: ExecId): Sys {
    if rid in s.pool.handles && s.pool.handles[rid].runtime.cancelRequested && rid in s.pool.inflight
    then Push(s, s.pool.inflight[rid].workerId, s.pool.inflight[rid].sink, Cancel(rid))
    else s
  }

  function DoAttach(s: Sys, id: SessionId, terminal: nat, now: int): Sys {
    match P.Attach(s.pool, id, terminal, now)
    case Err(_) => s
    case Ok(pool) => s.(pool := pool)
  }

  /** The read loop handles one frame from a worker. */
  function Handle(s: Sys, w: WorkerId, f: Frame, now: int): Sys {
    match f
    case SessionReady(id, error) => s.(pool := P.SessionReady(s.pool, w, id, error, now))
    case ResultOf(r) =>
      s.(pool := P.CompleteRequest(s.pool, r.requestId, now),
         finalizers := if r.requestId in s.pool.handles
                       then s.finalizers + multiset{(r.requestId, P.FromResult(r))} else s.finalizers)
    case SessionClosed(id, error, reusable) =>
      (match P.SessionClosed(s.pool, w, id, error, reusable, now)
       case None => s
       case Some(r) => s.(pool := r.pool, finalizers := s.finalizers + Tasks(r.pending, P.FromClose(r.cause))))
    case _ => s
  }

  function DoDeliver(s: Sys, w: WorkerId, now: int): Sys {
    if w !in s.conns || s.conns[w].up == [] then s
    else
      var c := s.conns[w];
      Handle(s.(conns := s.conns[w := c.(up := c.up[1..])]), w, c.up[0], now)
  }

  function DoSettle(s: Sys, rid: ExecId, verdict: P.Verdict, now: int): Sys {
    if (rid, verdict) !in s.finalizers then s
    else s.(pool := P.Finalize(s.pool, rid, verdict, now), finalizers := s.finalizers - multiset{(rid, verdict)})
  }

  function DoPurge(s: Sys, rid: ExecId): Sys {
    if rid in s.pool.handles && !s.pool.handles[rid].runtime.status.Running?
    then s.(pool := P.Purge(s.pool, rid)) else s
  }

  function DoTake(s: Sys, w: WorkerId, oom: bool): Sys {
    var (pool, taken) := P.DropTake(s.pool, w);
    s.(pool := pool, conns := s.conns - {w}, dropping := s.dropping + multiset{w},
       finalizers := s.finalizers + Tasks(taken, P.FromDrop(oom)))
  }

  function DoForget(s: Sys, w: WorkerId, now: int): Sys {
    if w !in s.dropping then s
    else s.(pool := P.DropRest(s.pool, w, now).0, conns := s.conns - {w}, dropping := s.dropping - multiset{w})
  }

  // ------------------------------------------------------------ worker steps

  function SetConn(s: Sys, w: WorkerId, c: Conn): Sys { s.(conns := s.conns[w := c]) }

  function DoReceive(s: Sys, w: WorkerId, spawnError: Option<string>, home: Option<string>): Sys {
    if w !in s.conns || s.conns[w].down == [] then s else SetConn(s, w, Receive(s.conns[w], spawnError, home))
  }

  function DoWork(s: Sys, w: WorkerId, e: S.Event): Sys {
    if w !in s.conns || !s.conns[w].worker.Serving? || !Internal(e) || !S.Legal(s.conns[w].worker.sched, e) then s
    else SetConn(s, w, Worked(s.conns[w], s.conns[w].worker.id, s.conns[w].worker.sched, e))
  }

  function DoReport(s: Sys, w: WorkerId, resetFailed: bool, exiting: bool, ok: bool): Sys {
    if w !in s.conns then s else SetConn(s, w, Report(s.conns[w], resetFailed, exiting, ok))
  }

  function DoCrash(s: Sys, w: WorkerId): Sys {
    if w !in s.conns then s else SetConn(s, w, Crash(s.conns[w]))
  }

  /** One step. A label that is not enabled changes nothing. */
  function Next(s: Sys, l: Label): Sys {
    match l
    case Hello(w, profile) => DoHello(s, w, profile)
    case CreateSession(id, profile, inputs, now) => DoCreate(s, id, profile, inputs, now)
    case SendOpen(id, ok) => DoSendOpen(s, id, ok)
    case OpenTimeout(id) => DoOpenTimeout(s, id)
    case ReplyCreated(id, now) => DoReply(s, id, now)
    case Status(id, now) => s.(pool := P.Touch(s.pool, id, now))
    case BeginSubmit(id, rid, command, mode) => DoBeginSubmit(s, id, rid, command, mode)
    case SpoolSetupFails(id) => DoAbandon(s, id)
    case RegisterCommand(id, now) => DoRegister(s, id, now)
    case SendRun(id, ok) => DoSendRun(s, id, ok)
    case BeginClose(id, gate, waiter) => DoBeginClose(s, id, gate, waiter)
    case SendClose(id, ok) => DoSendClose(s, id, ok)
    case CancelCommand(rid) => s.(pool := P.CancelRequest(s.pool, rid))
    case SendCancel(rid) => DoSendCancel(s, rid)
    case AttachTerminal(id, terminal, now) => DoAttach(s, id, terminal, now)
    case DetachTerminal(id, terminal, now) => s.(pool := P.Detach(s.pool, id, terminal, now))
    case Deliver(w, now) => DoDeliver(s, w, now)
    case SettleHandle(rid, verdict, now) => DoSettle(s, rid, verdict, now)
    case SpoolError(rid) => s.(pool := P.SpoolFailed(s.pool, rid))
    case PurgeHandle(rid) => DoPurge(s, rid)
    case ForgetSessions(age) => s.(pool := P.Forget(s.pool, age))
    case TakeDropped(w, oom) => DoTake(s, w, oom)
    case ForgetDropped(w, now) => DoForget(s, w, now)
    case ReceiveFrame(w, spawnError, home) => DoReceive(s, w, spawnError, home)
    case Work(w, e) => DoWork(s, w, e)
    case SendReport(w, resetFailed, exiting, ok) => DoReport(s, w, resetFailed, exiting, ok)
    case CrashWorker(w) => DoCrash(s, w)
  }

  /** What a step is, label by label: those that enter the pool under its lock ... */
  lemma NextAtPool(s: Sys, l: Label)
    ensures l.Hello? ==> Next(s, l) == DoHello(s, l.w, l.profile)
    ensures l.CreateSession? ==> Next(s, l) == DoCreate(s, l.id, l.profile, l.inputs, l.now)
    ensures l.RegisterCommand? ==> Next(s, l) == DoRegister(s, l.id, l.now)
    ensures l.BeginClose? ==> Next(s, l) == DoBeginClose(s, l.id, l.gate, l.waiter)
    ensures l.Deliver? ==> Next(s, l) == DoDeliver(s, l.w, l.now)
    ensures l.SettleHandle? ==> Next(s, l) == DoSettle(s, l.rid, l.verdict, l.now)
    ensures l.TakeDropped? ==> Next(s, l) == DoTake(s, l.w, l.oom)
    ensures l.ForgetDropped? ==> Next(s, l) == DoForget(s, l.w, l.now)
  {
    hide DoHello, DoCreate, DoSendOpen, DoOpenTimeout, DoReply, DoBeginSubmit, DoAbandon, DoRegister, DoSendRun,
         DoBeginClose,
         DoSendClose, DoSendCancel, DoAttach, DoDeliver, DoSettle, DoPurge, DoTake, DoForget, DoReceive, DoWork,
         DoReport, DoCrash;
  }

  /** ... and those at a connection or at its worker. */
  lemma NextOnWire(s: Sys, l: Label)
    ensures l.BeginSubmit? ==> Next(s, l) == DoBeginSubmit(s, l.id, l.rid, l.command, l.mode)
    ensures l.SendRun? ==> Next(s, l) == DoSendRun(s, l.id, l.ok)
    ensures l.SendCancel? ==> Next(s, l) == DoSendCancel(s, l.rid)
    ensures l.ReceiveFrame? ==> Next(s, l) == DoReceive(s, l.w, l.spawnError, l.home)
    ensures l.Work? ==> Next(s, l) == DoWork(s, l.w, l.e)
    ensures l.SendReport? ==> Next(s, l) == DoReport(s, l.w, l.resetFailed, l.exiting, l.ok)
    ensures l.CrashWorker? ==> Next(s, l) == DoCrash(s, l.w)
  {
    hide DoHello, DoCreate, DoSendOpen, DoOpenTimeout, DoReply, DoBeginSubmit, DoAbandon, DoRegister, DoSendRun,
         DoBeginClose,
         DoSendClose, DoSendCancel, DoAttach, DoDeliver, DoSettle, DoPurge, DoTake, DoForget, DoReceive, DoWork,
         DoReport, DoCrash;
  }

  /** Labels that touch nothing but the pool. */
  predicate PoolOnly(l: Label) {
    l.ReplyCreated? || l.Status? || l.AttachTerminal? || l.DetachTerminal? || l.CancelCommand? || l.SpoolError?
    || l.PurgeHandle? || l.ForgetSessions?
  }

  function PoolStep(p: P.Pool, l: Label): P.Pool {
    match l
    case ReplyCreated(id, now) => if P.Created(p, id, now).Ok? then P.Created(p, id, now).value else p
    case Status(id, now) => P.Touch(p, id, now)
    case AttachTerminal(id, terminal, now) =>
      if P.Attach(p, id, terminal, now).Ok? then P.Attach(p, id, terminal, now).value else p
    case DetachTerminal(id, terminal, now) => P.Detach(p, id, terminal, now)
    case CancelCommand(rid) => P.CancelRequest(p, rid)
    case SpoolError(rid) => P.SpoolFailed(p, rid)
    case PurgeHandle(rid) => if rid in p.handles && !p.handles[rid].runtime.status.Running? then P.Purge(p, rid) else p
    case ForgetSessions(age) => P.Forget(p, age)
    case _ => p
  }

  lemma PoolOnlyStep(s: Sys, l: Label)
    requires PoolOnly(l)
    ensures Next(s, l) == s.(pool := PoolStep(s.pool, l))
  {
    hide P.Created, P.Touch, P.Attach, P.Detach, P.CancelRequest, P.SpoolFailed, P.Purge, P.Forget;
    SamePool(s);
  }

  lemma SamePool(s: Sys)
    ensures s.(pool := s.pool) == s && s.(conns := s.conns) == s
  {
  }

  /** Labels at the server's end of a connection. */
  predicate AtServer(l: Label) {
    l.SendOpen? || l.OpenTimeout? || l.BeginSubmit? || l.SpoolSetupFails? || l.SendRun? || l.SendClose? || l.SendCancel?
  }

  predicate AtWorker(l: Label) { l.ReceiveFrame? || l.Work? || l.SendReport? || l.CrashWorker? }

  lemma WriteKeeps(s: Sys, w: WorkerId, sink: nat, f: Frame, ok: bool)
    ensures Write(s, w, sink, f, ok) == s.(conns := Write(s, w, sink, f, ok).conns)
    ensures Push(s, w, sink, f) == s.(conns := Push(s, w, sink, f).conns)
  {
  }

  lemma ServerKeepsPool(s: Sys, l: Label)
    requires AtServer(l)
    ensures Next(s, l) == s.(conns := Next(s, l).conns, unsent := Next(s, l).unsent, holders := Next(s, l).holders,
                             log := Next(s, l).log)
  {
    hide Write, Push;
    if l.SendOpen? && l.id in s.unsent {
      WriteKeeps(s.(unsent := s.unsent - {l.id}), s.unsent[l.id].0, s.unsent[l.id].1, s.unsent[l.id].2, l.ok);
    } else if l.SendRun? && l.id in s.holders && s.holders[l.id].Registered? {
      var h := s.holders[l.id];
      WriteKeeps(s.(holders := s.holders - {l.id}, log := s.log[l.id := LogOf(s, l.id) + [RunSent]]),
                 h.worker, h.sink, SessionRun(l.id, h.execute, h.mode), l.ok);
    } else if l.SendClose? && l.id in s.holders {
      var h := s.holders[l.id];
      WriteKeeps(s.(holders := s.holders - {l.id}, log := s.log[l.id := LogOf(s, l.id) + [CloseSent]]),
                 h.worker, h.sink, SessionClose(l.id), l.ok);
    } else if l.OpenTimeout? && l.id in s.pool.sessions {
      WriteKeeps(s, s.pool.sessions[l.id].workerId, s.pool.sessions[l.id].sink, SessionClose(l.id), true);
    } else if l.SendCancel? && l.rid in s.pool.inflight {
      WriteKeeps(s, s.pool.inflight[l.rid].workerId, s.pool.inflight[l.rid].sink, Cancel(l.rid), true);
    }
  }

  lemma WorkerKeepsPool(s: Sys, l: Label)
    requires AtWorker(l)
    ensures Next(s, l) == s.(conns := Next(s, l).conns)
  {
    hide Receive, Worked, Report, Crash;
    SamePool(s);
  }

  function Exec(s: Sys, labels: seq<Label>): Sys
    decreases |labels|
  {
    if labels == [] then s else Exec(Next(s, labels[0]), labels[1..])
  }

  lemma {:induction false} ExecConcat(s: Sys, a: seq<Label>, b: seq<Label>)
    ensures Exec(s, a + b) == Exec(Exec(s, a), b)
    decreases |a|
  {
    hide Next;
    if a == [] {
      assert a + b == b;
    } else {
      assert (a + b)[0] == a[0] && (a + b)[1..] == a[1..] + b;
      ExecConcat(Next(s, a[0]), a[1..], b);
    }
  }

  lemma LastStep(labels: seq<Label>)
    requires labels != []
    ensures Exec(INIT, labels) == Next(Exec(INIT, labels[..|labels| - 1]), labels[|labels| - 1])
  {
    hide Next;
    var l := labels[|labels| - 1];
    assert labels == labels[..|labels| - 1] + [l];
    ExecConcat(INIT, labels[..|labels| - 1], [l]);
    LastOne(Exec(INIT, labels[..|labels| - 1]), l);
  }

  lemma LastOne(s: Sys, l: Label)
    ensures Exec(s, [l]) == Next(s, l)
  {
    hide Next;
    assert [l][1..] == [];
    assert Exec(Next(s, l), []) == Next(s, l);
  }
}
