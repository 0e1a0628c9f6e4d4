/** Where frames come from: over every run of the system, each frame on a channel
    is traced back to the step that wrote it or made it be written. */
module Frames {
  import opened Wrappers
  import opened Protocol
  import S = Scheduler
  import P = ServerPool
  import opened Link
  import opened System
  import opened Composition
  import O = Outcomes
  import R = SessionRuns
  import N = RunsOnce

  /** One step of a run, with the state it was taken in. */
  datatype Moment = Moment(before: Sys, step: Label)

  /** The steps of a run. */
  function Past(labels: seq<Label>): seq<Moment> {
    seq(|labels|, k requires 0 <= k < |labels| => Moment(Exec(INIT, labels[..k]), labels[k]))
  }

  lemma PastGrows(labels: seq<Label>)
    requires labels != []
    ensures var n := |labels| - 1;
            Past(labels) == Past(labels[..n]) + [Moment(Exec(INIT, labels[..n]), labels[n])]
  {
    var n := |labels| - 1;
    forall k | 0 <= k < n ensures labels[..n][..k] == labels[..k] {
    }
  }

  /** A moment of a run is the end of a shorter one, whose moments are moments of the run. */
  lemma PastIs(labels: seq<Label>, m: Moment) returns (k: nat)
    requires m in Past(labels)
    ensures k < |labels| && m == Moment(Exec(INIT, labels[..k]), labels[k])
  {
    hide Exec;
    k :| 0 <= k < |labels| && Past(labels)[k] == m;
  }

  lemma PastWithin(labels: seq<Label>, k: nat, m: Moment)
    requires k <= |labels| && m in Past(labels[..k])
    ensures m in Past(labels)
  {
    hide Exec;
    var i :| 0 <= i < k && Past(labels[..k])[i] == m;
    assert labels[..k][..i] == labels[..i];
    assert Past(labels)[i] == m;
  }

  // ------------------------------------------------- what one step writes

  /** The event a worker's loop handles in a step, if it handles one. */
  function EventAt(s: Sys, l: Label, w: WorkerId): Option<S.Event> {
    if w !in s.conns || !s.conns[w].worker.Serving? then None
    else
      var c := s.conns[w];
      if l.Work? && l.w == w && Internal(l.e) && S.Legal(c.worker.sched, l.e) then Some(l.e)
      else if l.ReceiveFrame? && l.w == w && c.down != [] then EventOf(c.down[0], c.worker.id)
      else None
  }

  /** The worker writes this frame in this step. */
  ghost predicate Wrote(s: Sys, l: Label, w: WorkerId, f: Frame) {
    && w in s.conns
    && var c := s.conns[w];
       match f
       case ResultOf(r) => EventAt(s, l, w).Some? && S.Says(c.worker.sched, EventAt(s, l, w).value, r)
       case SessionReady(id, error) =>
         && l.ReceiveFrame? && l.w == w && error == l.spawnError
         && c.worker.Awaiting? && c.down != [] && c.down[0].SessionOpen? && c.down[0].sessionId == id
       case SessionClosed(id, error, reusable) =>
         && l.SendReport? && l.w == w && l.ok && c.worker.Leaving? && c.worker.id == id
         && error == (if l.resetFailed then Some("sandbox reset failed") else c.worker.error)
         && (reusable <==> !l.resetFailed && !l.exiting)
       case _ => false
  }

  /** The server writes this frame to this worker's connection in this step. */
  predicate Writes(s: Sys, l: Label, w: WorkerId, f: Frame) {
    match l
    case SendOpen(id, ok) => ok && id in s.unsent && w == s.unsent[id].0 && f == s.unsent[id].2
    case SendRun(id, ok) =>
      ok && id in s.holders && s.holders[id].Registered? && w == s.holders[id].worker
      && f == SessionRun(id, s.holders[id].execute, s.holders[id].mode)
    case SendClose(id, ok) =>
      ok && id in s.holders && s.holders[id].Closer? && w == s.holders[id].worker && f == SessionClose(id)
    case OpenTimeout(id) => id in s.pool.sessions && w == s.pool.sessions[id].workerId && f == SessionClose(id)
    case SendCancel(rid) =>
      && rid in s.pool.handles && s.pool.handles[rid].runtime.cancelRequested && rid in s.pool.inflight
      && w == s.pool.inflight[rid].workerId && f == Cancel(rid)
    case _ => false
  }

  /** What a step makes of a connection that stands before and after it. */
  ghost predicate Moved(s: Sys, l: Label, w: WorkerId, c': Conn)
    requires w in s.conns
  {
    var c := s.conns[w];
    || c' == c
    || (c' == c.(down := c'.down) && exists f :: Writes(s, l, w, f) && c'.down == c.down + [f])
    || (l.Deliver? && l.w == w && c.up != [] && c' == c.(up := c.up[1..]))
    || (l.ReceiveFrame? && l.w == w && c.down != [] && c' == Receive(c, l.spawnError, l.home))
    || (l.Work? && l.w == w && EventAt(s, l, w).Some? && c' == Worked(c, c.worker.id, c.worker.sched, l.e))
    || (l.SendReport? && l.w == w && c' == Report(c, l.resetFailed, l.exiting, l.ok))
    || (l.CrashWorker? && l.w == w && c' == Crash(c))
  }

  /** What a step makes of the connections. */
  ghost predicate Moves(s: Sys, l: Label) {
    forall w :: w in Next(s, l).conns ==>
      || (l.Hello? && l.w == w && Next(s, l).conns[w] == Conn(s.sinks, [], [], Awaiting))
      || (w in s.conns && Moved(s, l, w, Next(s, l).conns[w]))
  }

  lemma PushMoves(s: Sys, l: Label, s1: Sys, w: WorkerId, sink: nat, f: Frame, ok: bool)
    requires s1.conns == s.conns && Next(s, l).conns == Write(s1, w, sink, f, ok).conns
    requires ok ==> Writes(s, l, w, f)
    ensures Moves(s, l)
  {
    hide Next, Writes;
    forall v | v in Next(s, l).conns ensures v in s.conns && Moved(s, l, v, Next(s, l).conns[v]) {
      assert v in s.conns;
    }
  }

  lemma SameMoves(s: Sys, l: Label)
    requires Next(s, l).conns == s.conns
    ensures Moves(s, l)
  {
    hide Next;
  }

  lemma ServerMoves(s: Sys, l: Label)
    requires AtServer(l)
    ensures Moves(s, l)
  {
    hide Write, Moves;
    if l.SendOpen? && l.id in s.unsent {
      var u := s.unsent[l.id];
      PushMoves(s, l, s.(unsent := s.unsent - {l.id}), u.0, u.1, u.2, l.ok);
    } else if (l.SendRun? || l.SendClose?) && l.id in s.holders && !s.holders[l.id].Submitting?
              && (l.SendRun? <==> s.holders[l.id].Registered?) {
      var h := s.holders[l.id];
      var sent := if l.SendRun? then RunSent else CloseSent;
      var f := if l.SendRun? then SessionRun(l.id, h.execute, h.mode) else SessionClose(l.id);
      PushMoves(s, l, s.(holders := s.holders - {l.id}, log := s.log[l.id := LogOf(s, l.id) + [sent]]), h.worker,
                h.sink, f, l.ok);
    } else {
      ControlMoves(s, l);
    }
  }

  lemma ControlMoves(s: Sys, l: Label)
    requires AtServer(l) && !(l.SendOpen? && l.id in s.unsent)
    requires !(l.SendRun? && l.id in s.holders && s.holders[l.id].Registered?)
    requires !(l.SendClose? && l.id in s.holders && s.holders[l.id].Closer?)
    ensures Moves(s, l)
  {
    hide Push, Moves;
    if l.OpenTimeout? && l.id in s.pool.sessions {
      var rec := s.pool.sessions[l.id];
      PushMoves(s, l, s, rec.workerId, rec.sink, SessionClose(l.id), true);
    } else if l.SendCancel? && l.rid in s.pool.handles && s.pool.handles[l.rid].runtime.cancelRequested
              && l.rid in s.pool.inflight {
      PushMoves(s, l, s, s.pool.inflight[l.rid].workerId, s.pool.inflight[l.rid].sink, Cancel(l.rid), true);
    } else {
      SameMoves(s, l);
    }
  }

  lemma WorkerMoves(s: Sys, l: Label)
    requires AtWorker(l)
    ensures Moves(s, l)
  {
    hide Next, Receive, Worked, Report, Crash, S.Legal, EventOf;
    NextOnWire(s, l);
  }

  lemma PoolMoves(s: Sys, l: Label)
    requires !AtServer(l) && !AtWorker(l)
    ensures Moves(s, l)
  {
    hide Next, Moves, P.Create, P.Submit, P.Close, P.Finalize;
    NextAtPool(s, l);
    if PoolOnly(l) {
      PoolOnlyStep(s, l);
      SameMoves(s, l);
    } else if l.Hello? || l.TakeDropped? || l.ForgetDropped? || l.Deliver? {
      EndMoves(s, l);
    } else {
      SameMoves(s, l);
    }
  }

  lemma EndMoves(s: Sys, l: Label)
    requires l.Hello? || l.TakeDropped? || l.ForgetDropped? || l.Deliver?
    ensures Moves(s, l)
  {
    hide Next, P.Register, P.DropTake, P.DropRest, P.SessionReady, P.CompleteRequest, P.SessionClosed, Tasks;
    NextAtPool(s, l);
    if l.Deliver? && l.w in s.conns && s.conns[l.w].up != [] {
      assert Next(s, l).conns == s.conns[l.w := s.conns[l.w].(up := s.conns[l.w].up[1..])];
    }
  }

  lemma StepMoves(s: Sys, l: Label)
    ensures Moves(s, l)
  {
    hide Next, Moves;
    if AtServer(l) {
      ServerMoves(s, l);
    } else if AtWorker(l) {
      WorkerMoves(s, l);
    } else {
      PoolMoves(s, l);
    }
  }

  // ---------------------------------------- what makes the server write a frame

  /** The session is created, with this input. */
  predicate CreatedAt(m: Moment, id: SessionId, inputs: P.Inputs) {
    && m.step.CreateSession? && m.step.id == id && m.step.inputs == inputs
    && id !in m.before.usedSessions && id in Next(m.before, m.step).usedSessions
  }

  /** The command is submitted to a session that is active and under no terminal that bars it. */
  predicate SubmittedAt(m: Moment, id: SessionId, execute: Execute, mode: Mode) {
    && m.step == BeginSubmit(id, execute.requestId, execute.command, mode)
    && id !in m.before.holders && id in m.before.pool.sessions
    && var rec := m.before.pool.sessions[id];
       && rec.state == P.Active && (mode == Stateful ==> rec.terminal == None)
       && P.Inputs(execute.workingDir, execute.env, execute.dropTo) == rec.inputs
  }

  /** A cancel is asked for while the command runs. */
  predicate AskedAt(m: Moment, rid: ExecId) {
    && m.step == CancelCommand(rid)
    && rid in m.before.pool.handles && m.before.pool.handles[rid].runtime.status == P.Running
  }

  /** Someone closes the session, or its creator gives up on it. */
  predicate ClosedAt(m: Moment, id: SessionId) {
    (m.step.BeginClose? || m.step.OpenTimeout?) && m.step.id == id
  }

  /** A step in the past is why the server writes this frame. */
  ghost predicate Caused(past: seq<Moment>, f: Frame) {
    match f
    case SessionOpen(id, dir, env, dropTo) => exists m :: m in past && CreatedAt(m, id, P.Inputs(dir, env, dropTo))
    case SessionRun(id, execute, mode) => exists m :: m in past && SubmittedAt(m, id, execute, mode)
    case Cancel(rid) => exists m :: m in past && AskedAt(m, rid)
    case SessionClose(id) => exists m :: m in past && ClosedAt(m, id)
    case _ => false
  }

  /** A step in the past is the one in which the worker wrote this frame. */
  ghost predicate Traced(past: seq<Moment>, w: WorkerId, f: Frame) {
    exists m :: m in past && Wrote(m.before, m.step, w, f)
  }

  lemma StillCaused(past: seq<Moment>, m: Moment, f: Frame)
    requires Caused(past, f)
    ensures Caused(past + [m], f)
  {
    hide CreatedAt, SubmittedAt, AskedAt, ClosedAt;
    assert forall n :: n in past ==> n in past + [m];
  }

  lemma StillTraced(past: seq<Moment>, m: Moment, w: WorkerId, f: Frame)
    requires Traced(past, w, f)
    ensures Traced(past + [m], w, f)
  {
    hide Wrote;
    assert forall n :: n in past ==> n in past + [m];
  }

  // ---------------------------------------------------------------- invariants

  ghost predicate LockFrom(past: seq<Moment>, holders: map<SessionId, Holder>) {
    forall id :: id in holders ==> Caused(past, HolderFrame(id, holders[id]))
  }

  /** The frame a lock holder is going to write. */
  function HolderFrame(id: SessionId, h: Holder): Frame {
    if h.Closer? then SessionClose(id) else SessionRun(id, h.execute, h.mode)
  }

  ghost predicate UnsentFrom(past: seq<Moment>, unsent: map<SessionId, (WorkerId, nat, Frame)>) {
    forall id :: id in unsent ==> unsent[id].2.SessionOpen? && Caused(past, unsent[id].2)
  }

  ghost predicate FlagFrom(past: seq<Moment>, handles: map<ExecId, P.Handle>) {
    forall rid :: rid in handles && handles[rid].runtime.cancelRequested ==> Caused(past, Cancel(rid))
  }

  ghost predicate ConnFrom(past: seq<Moment>, w: WorkerId, c: Conn) {
    && (forall i :: 0 <= i < |c.down| ==> Caused(past, c.down[i]))
    && (forall i :: 0 <= i < |c.up| ==> Traced(past, w, c.up[i]))
  }

  ghost predicate WireFrom(past: seq<Moment>, conns: map<WorkerId, Conn>) {
    forall w :: w in conns ==> ConnFrom(past, w, conns[w])
  }

  ghost predicate FramesFrom(past: seq<Moment>, s: Sys) {
    LockFrom(past, s.holders) && UnsentFrom(past, s.unsent) && FlagFrom(past, s.pool.handles) && WireFrom(past, s.conns)
  }

  // --------------------------------------------------------------- lock holders

  /** What a step makes of a lock holder. */
  predicate HolderMoved(s: Sys, l: Label, id: SessionId, h: Holder) {
    || (id in s.holders && HolderFrame(id, s.holders[id]) == HolderFrame(id, h))
    || (h.Closer? && ClosedAt(Moment(s, l), id))
    || (h.Submitting? && SubmittedAt(Moment(s, l), id, h.execute, h.mode))
  }

  lemma HolderStep(s: Sys, l: Label)
    ensures forall id :: id in Next(s, l).holders ==> HolderMoved(s, l, id, Next(s, l).holders[id])
  {
    hide Next, HolderMoved;
    match l
    case RegisterCommand(_, _) => RegisterHolders(s, l);
    case BeginSubmit(_, _, _, _) => SubmitHolders(s, l);
    case BeginClose(_, _, _) => CloseHolders(s, l);
    case _ =>
      OtherHolders(s, l);
      SameHolder(s, l);
  }

  lemma SameHolder(s: Sys, l: Label)
    requires forall id :: id in Next(s, l).holders ==> id in s.holders && Next(s, l).holders[id] == s.holders[id]
    ensures forall id :: id in Next(s, l).holders ==> HolderMoved(s, l, id, Next(s, l).holders[id])
  {
    hide Next, SubmittedAt, ClosedAt;
  }

  lemma RegisterHolders(s: Sys, l: Label)
    requires l.RegisterCommand?
    ensures forall id :: id in Next(s, l).holders ==> HolderMoved(s, l, id, Next(s, l).holders[id])
  {
    hide Next, P.Submit, SubmittedAt, ClosedAt;
    NextAtPool(s, l);
  }

  lemma SubmitHolders(s: Sys, l: Label)
    requires l.BeginSubmit?
    ensures forall id :: id in Next(s, l).holders ==> HolderMoved(s, l, id, Next(s, l).holders[id])
  {
    hide Next, ClosedAt;
    NextOnWire(s, l);
  }

  lemma CloseHolders(s: Sys, l: Label)
    requires l.BeginClose?
    ensures forall id :: id in Next(s, l).holders ==> HolderMoved(s, l, id, Next(s, l).holders[id])
  {
    hide Next, P.Close, SubmittedAt;
    NextAtPool(s, l);
  }

  /** The other steps give the lock back, if anything. */
  lemma OtherHolders(s: Sys, l: Label)
    requires !l.RegisterCommand? && !l.BeginClose? && !l.BeginSubmit?
    ensures forall id :: id in Next(s, l).holders ==> id in s.holders && Next(s, l).holders[id] == s.holders[id]
  {
    hide Next, Write, Push;
    if AtServer(l) {
      WriteHolders(s, l);
    } else {
      R.LogSame(s, l);
    }
  }

  lemma WriteHolders(s: Sys, l: Label)
    requires AtServer(l) && !l.BeginSubmit?
    ensures forall id :: id in Next(s, l).holders ==> id in s.holders && Next(s, l).holders[id] == s.holders[id]
  {
  }

  lemma LockStep(past: seq<Moment>, s: Sys, l: Label)
    requires LockFrom(past, s.holders)
    ensures LockFrom(past + [Moment(s, l)], Next(s, l).holders)
  {
    hide Next, Caused, SubmittedAt, ClosedAt, HolderFrame;
    var m := Moment(s, l);
    HolderStep(s, l);
    forall id | id in Next(s, l).holders ensures Caused(past + [m], HolderFrame(id, Next(s, l).holders[id])) {
      var h := Next(s, l).holders[id];
      if id in s.holders && HolderFrame(id, s.holders[id]) == HolderFrame(id, h) {
        StillCaused(past, m, HolderFrame(id, h));
      } else {
        HolderSent(past, m, id, h);
      }
    }
  }

  lemma HolderSent(past: seq<Moment>, m: Moment, id: SessionId, h: Holder)
    requires (h.Closer? && ClosedAt(m, id)) || (h.Submitting? && SubmittedAt(m, id, h.execute, h.mode))
    ensures Caused(past + [m], HolderFrame(id, h))
  {
    hide ClosedAt, SubmittedAt;
    assert m in past + [m];
  }

  // -------------------------------------------------------------- unsent opens

  lemma UnsentStep(past: seq<Moment>, s: Sys, l: Label)
    requires UnsentFrom(past, s.unsent)
    ensures UnsentFrom(past + [Moment(s, l)], Next(s, l).unsent)
  {
    hide Next, Caused;
    var m := Moment(s, l);
    UnsentMoved(s, l);
    forall id | id in Next(s, l).unsent
      ensures Next(s, l).unsent[id].2.SessionOpen? && Caused(past + [m], Next(s, l).unsent[id].2)
    {
      if id in s.unsent && Next(s, l).unsent[id] == s.unsent[id] {
        StillCaused(past, m, s.unsent[id].2);
      } else {
        OpenSent(past, m, id, Next(s, l).unsent[id].2);
      }
    }
  }

  lemma OpenSent(past: seq<Moment>, m: Moment, id: SessionId, f: Frame)
    requires f.SessionOpen? && f.sessionId == id && CreatedAt(m, id, P.Inputs(f.workingDir, f.env, f.dropTo))
    ensures Caused(past + [m], f)
  {
    hide CreatedAt;
    assert m in past + [m];
  }

  lemma UnsentMoved(s: Sys, l: Label)
    ensures forall id :: id in Next(s, l).unsent ==>
              || (id in s.unsent && Next(s, l).unsent[id] == s.unsent[id])
              || (var f := Next(s, l).unsent[id].2;
                  && f.SessionOpen? && f.sessionId == id
                  && CreatedAt(Moment(s, l), id, P.Inputs(f.workingDir, f.env, f.dropTo)))
  {
    hide Next, P.Create;
    NextAtPool(s, l);
    if !l.CreateSession? {
      OtherUnsent(s, l);
    }
  }

  lemma OtherUnsent(s: Sys, l: Label)
    requires !l.CreateSession?
    ensures forall id :: id in Next(s, l).unsent ==> id in s.unsent && Next(s, l).unsent[id] == s.unsent[id]
  {
    hide Next, Write, Push;
    if AtServer(l) {
      WriteUnsent(s, l);
    } else if AtWorker(l) {
      WorkerKeepsPool(s, l);
    } else if PoolOnly(l) {
      PoolOnlyStep(s, l);
    } else {
      PoolUnsent(s, l);
    }
  }

  lemma WriteUnsent(s: Sys, l: Label)
    requires AtServer(l)
    ensures forall id :: id in Next(s, l).unsent ==> id in s.unsent && Next(s, l).unsent[id] == s.unsent[id]
  {
  }

  lemma PoolUnsent(s: Sys, l: Label)
    requires !l.CreateSession? && !AtServer(l) && !AtWorker(l) && !PoolOnly(l)
    ensures Next(s, l).unsent == s.unsent
  {
    hide Next, P.Register, P.Submit, P.Close, P.SessionReady, P.CompleteRequest, P.SessionClosed, P.DropTake,
         P.DropRest, P.Finalize, Tasks;
    NextAtPool(s, l);
  }

  // -------------------------------------------------------------------- handles

  /** What a step makes of a handle. */
  predicate HandleMoved(s: Sys, l: Label, rid: ExecId, h': P.Handle) {
    || (l.RegisterCommand? && h'.runtime == P.FRESH)
    || (rid in s.pool.handles
        && var r, r' := s.pool.handles[rid].runtime, h'.runtime;
           || r' == r
           || (l.SettleHandle? && l.rid == rid && (rid, l.verdict) in s.finalizers
               && r' == P.Settle(r, l.verdict, l.now))
           || (l == CancelCommand(rid) && r.status == P.Running && r' == r.(cancelRequested := true))
           || (l == SpoolError(rid) && r' == r.(spoolFailed := true)))
  }

  lemma HandleStep(s: Sys, l: Label)
    ensures forall rid :: rid in Next(s, l).pool.handles ==> HandleMoved(s, l, rid, Next(s, l).pool.handles[rid])
  {
    hide Next, P.Settle, DoRegister, DoSettle, DoTake, DoDeliver;
    NextAtPool(s, l);
    match l
    case RegisterCommand(id, now) => O.RegisterShape(s, id, now);
    case SettleHandle(rid, verdict, now) => SettleMoves(s, rid, verdict, now);
    case PurgeHandle(_) => FlagMoves(s, l);
    case CancelCommand(_) => FlagMoves(s, l);
    case SpoolError(_) => FlagMoves(s, l);
    case TakeDropped(w, oom) => TakeHandles(s, w, oom);
    case Deliver(w, now) => DeliverHandles(s, w, now);
    case _ => O.NoCommandLabel(s, l);
  }

  lemma SettleMoves(s: Sys, rid: ExecId, verdict: P.Verdict, now: int)
    ensures forall r :: r in DoSettle(s, rid, verdict, now).pool.handles ==>
              HandleMoved(s, SettleHandle(rid, verdict, now), r, DoSettle(s, rid, verdict, now).pool.handles[r])
  {
    hide P.Settle;
  }

  lemma FlagMoves(s: Sys, l: Label)
    requires l.PurgeHandle? || l.CancelCommand? || l.SpoolError?
    ensures forall rid :: rid in Next(s, l).pool.handles ==> HandleMoved(s, l, rid, Next(s, l).pool.handles[rid])
  {
    hide Next, P.Settle;
    PoolOnlyStep(s, l);
  }

  lemma TakeHandles(s: Sys, w: WorkerId, oom: bool)
    ensures DoTake(s, w, oom).pool.handles == s.pool.handles
  {
    hide Tasks;
  }

  lemma DeliverHandles(s: Sys, w: WorkerId, now: int)
    ensures DoDeliver(s, w, now).pool.handles == s.pool.handles
  {
    hide Tasks, P.SessionReady, P.CompleteRequest, P.SessionClosed;
    if w in s.conns && s.conns[w].up != [] {
      match s.conns[w].up[0]
      case SessionReady(id, error) => ReadHandles(s.pool, w, id, error, true, ExecId(""), now);
      case ResultOf(r) => ReadHandles(s.pool, w, SessionId(""), None, true, r.requestId, now);
      case SessionClosed(id, error, reusable) => ReadHandles(s.pool, w, id, error, reusable, ExecId(""), now);
      case _ =>
    }
  }

  lemma ReadHandles(p: P.Pool, w: WorkerId, id: SessionId, error: Option<string>, reusable: bool, rid: ExecId,
                    now: int)
    ensures P.SessionReady(p, w, id, error, now).handles == p.handles
    ensures P.CompleteRequest(p, rid, now).handles == p.handles
    ensures P.SessionClosed(p, w, id, error, reusable, now).Some? ==>
              P.SessionClosed(p, w, id, error, reusable, now).value.pool.handles == p.handles
  {
  }

  lemma FlagStep(past: seq<Moment>, s: Sys, l: Label)
    requires FlagFrom(past, s.pool.handles)
    ensures FlagFrom(past + [Moment(s, l)], Next(s, l).pool.handles)
  {
    hide Next, Caused, P.Settle;
    var m := Moment(s, l);
    HandleStep(s, l);
    forall rid | rid in Next(s, l).pool.handles && Next(s, l).pool.handles[rid].runtime.cancelRequested
      ensures Caused(past + [m], Cancel(rid))
    {
      assert HandleMoved(s, l, rid, Next(s, l).pool.handles[rid]);
      if rid in s.pool.handles && s.pool.handles[rid].runtime.cancelRequested {
        StillCaused(past, m, Cancel(rid));
      } else {
        if l.SettleHandle? && rid in s.pool.handles {
          P.SettleReads(s.pool.handles[rid].runtime, l.verdict, l.now);
        }
        CancelSent(past, m, rid);
      }
    }
  }

  lemma CancelSent(past: seq<Moment>, m: Moment, rid: ExecId)
    requires AskedAt(m, rid)
    ensures Caused(past + [m], Cancel(rid))
  {
    hide AskedAt;
    assert m in past + [m];
  }

  // ------------------------------------------------------------------- channels

  /** The frame a step writes to a worker had its reason already. */
  lemma WritesSent(past: seq<Moment>, s: Sys, l: Label, w: WorkerId, f: Frame)
    requires FramesFrom(past, s) && Writes(s, l, w, f)
    ensures Caused(past + [Moment(s, l)], f)
  {
    hide Caused, WireFrom;
    if l.OpenTimeout? {
      TimeoutSent(past, Moment(s, l), l.id);
    } else {
      if (l.SendRun? || l.SendClose?) {
        assert Caused(past, HolderFrame(l.id, s.holders[l.id]));
      }
      StillCaused(past, Moment(s, l), f);
    }
  }

  lemma TimeoutSent(past: seq<Moment>, m: Moment, id: SessionId)
    requires ClosedAt(m, id)
    ensures Caused(past + [m], SessionClose(id))
  {
    hide ClosedAt;
    assert m in past + [m];
  }

  /** A frame new on a worker's upward channel was written in this step. */
  lemma UpStep(s: Sys, l: Label, w: WorkerId, c': Conn)
    requires SysInv(s) && w in s.conns && Moved(s, l, w, c')
    ensures forall i :: 0 <= i < |c'.up| ==> c'.up[i] in s.conns[w].up || Wrote(s, l, w, c'.up[i])
  {
    hide SysInv, S.Step, S.Says, S.Start, S.EndsWith, Writes;
    var c := s.conns[w];
    var e := EventAt(s, l, w);
    if e.Some? && (l.Work? || l.ReceiveFrame?) {
      WorkedUp(s, l, w);
    }
  }

  lemma WorkedUp(s: Sys, l: Label, w: WorkerId)
    requires SysInv(s) && EventAt(s, l, w).Some?
    ensures var out := S.Step(s.conns[w].worker.sched, EventAt(s, l, w).value).1;
            forall i :: 0 <= i < |out| ==> Wrote(s, l, w, out[i])
  {
    hide SysInv, S.Step, S.Says, S.EndsWith, S.QueueBook, S.RunningBook, S.InOrder, S.Barrier;
    var sched, e := s.conns[w].worker.sched, EventAt(s, l, w).value;
    N.InvOf(s, w);
    ServingOn(s, w);
    var out := S.Step(sched, e).1;
    S.LoopAnswers(sched, e, if out != [] && out[0].ResultOf? then out[0].result else S.Withdrawal(ExecId("")), S.Lost);
  }

  lemma ServingOn(s: Sys, w: WorkerId)
    requires SysInv(s) && w in s.conns && s.conns[w].worker.Serving?
    ensures s.conns[w].worker.sched.ended.None?
  {
    hide SysInv;
    assert ConnOf(s, w) by { ConnHere(s, w); }
  }

  ghost predicate ConnOf(s: Sys, w: WorkerId) { w in s.conns && ConnInv(SliceOf(s, w, s.conns[w].sink), s.conns[w]) }

  lemma ConnHere(s: Sys, w: WorkerId)
    requires SysInv(s) && w in s.conns
    ensures ConnOf(s, w)
  {
    hide P.PoolInv, BooksInv, ConnInv;
  }

  lemma ConnStep(past: seq<Moment>, s: Sys, l: Label, w: WorkerId, c': Conn)
    requires SysInv(s) && FramesFrom(past, s) && w in s.conns && Moved(s, l, w, c')
    ensures ConnFrom(past + [Moment(s, l)], w, c')
  {
    hide SysInv, Caused, Traced, Wrote, Writes, FramesFrom, Receive, Worked, Report, Crash;
    var m, c := Moment(s, l), s.conns[w];
    assert ConnFrom(past, w, c) by { ConnIn(past, s, w); }
    UpStep(s, l, w, c');
    forall i | 0 <= i < |c'.up| ensures Traced(past + [m], w, c'.up[i]) {
      if c'.up[i] in c.up {
        StillTraced(past, m, w, c'.up[i]);
      } else {
        NowTraced(past, m, w, c'.up[i]);
      }
    }
    DownStep(s, l, w, c');
    forall i | 0 <= i < |c'.down| ensures Caused(past + [m], c'.down[i]) {
      if c'.down[i] in c.down {
        StillCaused(past, m, c'.down[i]);
      } else {
        WritesSent(past, s, l, w, c'.down[i]);
      }
    }
  }

  lemma DownStep(s: Sys, l: Label, w: WorkerId, c': Conn)
    requires w in s.conns && Moved(s, l, w, c')
    ensures forall i :: 0 <= i < |c'.down| ==> c'.down[i] in s.conns[w].down || Writes(s, l, w, c'.down[i])
  {
    hide Writes, S.Step, S.Start;
  }

  lemma NowTraced(past: seq<Moment>, m: Moment, w: WorkerId, f: Frame)
    requires Wrote(m.before, m.step, w, f)
    ensures Traced(past + [m], w, f)
  {
    hide Wrote;
    assert m in past + [m];
  }

  lemma ConnIn(past: seq<Moment>, s: Sys, w: WorkerId)
    requires FramesFrom(past, s) && w in s.conns
    ensures ConnFrom(past, w, s.conns[w])
  {
    hide Caused, Traced;
  }

  lemma FramesStep(past: seq<Moment>, s: Sys, l: Label)
    requires SysInv(s) && FramesFrom(past, s)
    ensures FramesFrom(past + [Moment(s, l)], Next(s, l))
  {
    hide SysInv, Next, LockFrom, UnsentFrom, FlagFrom, ConnFrom, Moved;
    LockStep(past, s, l);
    UnsentStep(past, s, l);
    FlagStep(past, s, l);
    StepMoves(s, l);
    var m := Moment(s, l);
    forall w | w in Next(s, l).conns ensures ConnFrom(past + [m], w, Next(s, l).conns[w]) {
      if w in s.conns && Moved(s, l, w, Next(s, l).conns[w]) {
        ConnStep(past, s, l, w, Next(s, l).conns[w]);
      } else {
        NewConn(past + [m], w, s.sinks);
      }
    }
  }

  lemma NewConn(past: seq<Moment>, w: WorkerId, sink: nat)
    ensures ConnFrom(past, w, Conn(sink, [], [], Awaiting))
  {
  }

  lemma {:induction false} FramesHere(labels: seq<Label>)
    ensures FramesFrom(Past(labels), Exec(INIT, labels))
    decreases |labels|
  {
    hide SysInv, Next, FramesFrom, Past;
    if labels == [] {
      InitFrames();
    } else {
      var before := labels[..|labels| - 1];
      FramesHere(before);
      Reachable(before);
      PastGrows(labels);
      LastStep(labels);
      FramesStep(Past(before), Exec(INIT, before), labels[|labels| - 1]);
    }
  }

  lemma InitFrames()
    ensures FramesFrom(Past([]), Exec(INIT, []))
  {
  }

  // ------------------------------------------------------------------- theorems

  /** The step in which a job of the worker's loop reported this result: every
      field is the report's, but for the error of a stateful command that left no
      readable shell state. */
  ghost predicate JobReported(m: Moment, w: WorkerId, r: ResultFrame) {
    && m.step.Work? && m.step.w == w && m.step.e.JobResult?
    && w in m.before.conns && m.before.conns[w].worker.Serving?
    && var sched, report := m.before.conns[w].worker.sched, m.step.e.result;
       && r.requestId == report.requestId && r.requestId in sched.running
       && r.exitCode == report.exitCode && r.exitSignal == report.exitSignal && r.cancelled == report.cancelled
       && r.error == (if sched.stateful == Some(r.requestId) && m.step.e.snapshot.Err?
                      then Some("could not read completed shell state: " + m.step.e.snapshot.error) else report.error)
  }

  /** An answer of the loop's own: it carries no exit data, an error, and is cancelled in just two cases. */
  ghost predicate OwnAnswer(r: ResultFrame) {
    && r.exitCode == None && r.exitSignal == None && r.error.Some?
    && if r.cancelled then r.error.value == "cancelled before start" || r.error.value == "stateful command did not stop"
       else r.error.value == "duplicate job or session concurrency limit reached"
            || "stateful command setup: " <= r.error.value
  }

  /** In every run, each frame on its way to the server was written by that worker
      for a reason, and each frame on its way to a worker goes back to a request
      the server took. */
  lemma FrameOrigins(labels: seq<Label>, w: WorkerId, f: Frame)
    ensures var s := Exec(INIT, labels);
            w in s.conns ==>
              && (f in s.conns[w].up ==> exists m :: m in Past(labels) && Wrote(m.before, m.step, w, f))
              && (f in s.conns[w].down ==> Caused(Past(labels), f))
  {
    hide Exec, Past, Wrote, Caused;
    FramesHere(labels);
    if w in Exec(INIT, labels).conns {
      ConnIn(Past(labels), Exec(INIT, labels), w);
      if f in Exec(INIT, labels).conns[w].up {
        assert Traced(Past(labels), w, f);
      }
    }
  }

  /** So each result on its way to the server is what a job of that worker
      reported, field for field, or one of the loop's own answers. */
  lemma ResultsAreReports(labels: seq<Label>, w: WorkerId, r: ResultFrame)
    ensures var s := Exec(INIT, labels);
            w in s.conns && ResultOf(r) in s.conns[w].up ==>
              OwnAnswer(r) || exists m :: m in Past(labels) && JobReported(m, w, r)
  {
    hide Exec, Past, Wrote, JobReported, OwnAnswer, Caused;
    FrameOrigins(labels, w, ResultOf(r));
    if w in Exec(INIT, labels).conns && ResultOf(r) in Exec(INIT, labels).conns[w].up {
      var m :| m in Past(labels) && Wrote(m.before, m.step, w, ResultOf(r));
      SaysWhat(m, w, r);
    }
  }

  lemma SaysWhat(m: Moment, w: WorkerId, r: ResultFrame)
    requires Wrote(m.before, m.step, w, ResultOf(r))
    ensures JobReported(m, w, r) || OwnAnswer(r)
  {
    hide S.Reached, S.Queued;
  }

  /** And every frame there is reason to write is written, behind the others:
      by the worker on its own channel ... */
  lemma WrittenUp(labels: seq<Label>, l: Label, w: WorkerId, f: Frame)
    ensures var s := Exec(INIT, labels);
            Wrote(s, l, w, f) ==> w in Next(s, l).conns && Next(s, l).conns[w].up == s.conns[w].up + [f]
  {
    hide Exec, Next, SysInv, S.Step, S.Says, S.EndsWith, S.Start, S.Legal, S.Shape, EventOf;
    var s := Exec(INIT, labels);
    if Wrote(s, l, w, f) {
      Reachable(labels);
      NextOnWire(s, l);
      if f.ResultOf? {
        var sched, e := s.conns[w].worker.sched, EventAt(s, l, w).value;
        ShapeOf(s, w);
        ServingOn(s, w);
        S.LoopAnswers(sched, e, f.result, S.Lost);
      }
    }
  }

  lemma ShapeOf(s: Sys, w: WorkerId)
    requires SysInv(s) && w in s.conns && s.conns[w].worker.Serving?
    ensures S.Shape(s.conns[w].worker.sched)
  {
    hide SysInv, S.Shape, S.QueueBook, S.RunningBook, S.InOrder, S.Barrier;
    N.InvOf(s, w);
  }

  /** The connection the server writes to in this step. */
  function SinkFor(s: Sys, l: Label): Option<nat> {
    match l
    case SendOpen(id, _) => if id in s.unsent then Some(s.unsent[id].1) else None
    case SendRun(id, _) => if id in s.holders then Some(s.holders[id].sink) else None
    case SendClose(id, _) => if id in s.holders then Some(s.holders[id].sink) else None
    case OpenTimeout(id) => if id in s.pool.sessions then Some(s.pool.sessions[id].sink) else None
    case SendCancel(rid) => if rid in s.pool.inflight then Some(s.pool.inflight[rid].sink) else None
    case _ => None
  }

  /** ... and by the server on the worker's, if that connection still stands. */
  lemma WrittenDown(s: Sys, l: Label, w: WorkerId, f: Frame)
    requires Writes(s, l, w, f) && w in s.conns && SinkFor(s, l) == Some(s.conns[w].sink)
    ensures w in Next(s, l).conns && Next(s, l).conns[w].down == s.conns[w].down + [f]
  {
  }

  /** A submission that is let through takes the session's send lock for its
      worker; a cancel that is let through marks the command. */
  lemma RequestsTaken(s: Sys, l: Label, id: SessionId, execute: Execute, mode: Mode, rid: ExecId)
    ensures SubmittedAt(Moment(s, l), id, execute, mode) ==>
              && id in Next(s, l).holders
              && Next(s, l).holders[id]
                 == Submitting(execute, mode, s.pool.sessions[id].workerId, s.pool.sessions[id].sink)
    ensures AskedAt(Moment(s, l), rid) ==>
              rid in Next(s, l).pool.handles && Next(s, l).pool.handles[rid].runtime.cancelRequested
  {
    hide Next;
    NextOnWire(s, l);
    if l.CancelCommand? {
      PoolOnlyStep(s, l);
    }
  }

  /** A cancel was asked for this command, which is in flight for the session that
      owns its worker, and that worker's connection stands. */
  predicate CancelDue(s: Sys, rid: ExecId) {
    && rid in s.pool.handles && s.pool.handles[rid].runtime.cancelRequested && rid in s.pool.inflight
    && var flight := s.pool.inflight[rid];
       && flight.workerId in s.conns && flight.sessionId in s.pool.sessions
       && flight.workerId in s.pool.workerSessions && s.pool.workerSessions[flight.workerId] == flight.sessionId
  }

  /** It is then written to that worker, behind what was written before. */
  lemma CancelArrives(labels: seq<Label>, rid: ExecId)
    ensures var s := Exec(INIT, labels);
            CancelDue(s, rid) ==>
              var w, s' := s.pool.inflight[rid].workerId, Next(s, SendCancel(rid));
              w in s'.conns && s'.conns[w].down == s.conns[w].down + [Cancel(rid)]
  {
    hide Exec, Next, ConnInv, P.IdleInv, P.OwnerInv, P.RecordsInv, P.CountInv, HoldersInv, UsedInv, LinksInv;
    Reachable(labels);
    NextOnWire(Exec(INIT, labels), SendCancel(rid));
  }
}