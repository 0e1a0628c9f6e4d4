/** What holds of the whole system in every reachable state, and what follows
    from it: conservation of commands, mutual exclusion, worker ownership, order
    on the wire. */
module Composition {
  import opened Wrappers
  import opened Protocol
  import S = Scheduler
  import P = ServerPool
  import opened Link
  import opened System

  // ------------------------------------------------------------- the invariant

  /** What the server knows of the worker on connection `sink`. */
  function Known(pool: P.Pool, unsent: map<SessionId, (WorkerId, nat, Frame)>, holders: map<SessionId, Holder>,
                 w: WorkerId, sink: nat): Slice
  {
    if w !in pool.workerSessions then Slice(None, Idle(pool.idle, w), false, false, false, false, None, map[])
    else
      var id := pool.workerSessions[w];
      var present := id in pool.sessions;
      Slice(Some(id), Idle(pool.idle, w), present,
            present && P.Holding(pool.sessions[id].state),
            present && pool.sessions[id].state.Active?,
            id in unsent && unsent[id].0 == w && unsent[id].1 == sink,
            PendingOf(holders, id, w, sink),
            P.InflightOf(pool.inflight, id))
  }

  function SliceOf(s: Sys, w: WorkerId, sink: nat): Slice { Known(s.pool, s.unsent, s.holders, w, sink) }

  predicate Idle(idle: seq<P.Entry>, w: WorkerId) {
    exists i :: 0 <= i < |idle| && idle[i].workerId == w
  }

  function PendingOf(holders: map<SessionId, Holder>, id: SessionId, w: WorkerId, sink: nat): Option<(ExecId, Mode)> {
    if id in holders && holders[id].Registered? && holders[id].worker == w && holders[id].sink == sink
    then Some((holders[id].execute.requestId, holders[id].mode)) else None
  }

  /** Live connections belong to registered workers, and every sink the server
      keeps for a worker's session, idle entry or lock holder is the worker's own. */
  ghost predicate SinksInv(s: Sys) {
    && s.conns.Keys <= s.pool.liveness.Keys
    && (forall w :: w in s.conns ==> s.conns[w].sink < s.sinks)
    && (forall w :: w in s.conns && w in s.pool.workerSessions && s.pool.workerSessions[w] in s.pool.sessions ==>
          s.pool.sessions[s.pool.workerSessions[w]].sink == s.conns[w].sink)
    && (forall i :: 0 <= i < |s.pool.idle| && s.pool.idle[i].workerId in s.conns ==>
          s.pool.idle[i].sink == s.conns[s.pool.idle[i].workerId].sink)
    && (forall i :: 0 <= i < |s.pool.idle| ==> s.pool.idle[i].sink < s.sinks)
  }

  /** Lock holders act for the session's own worker; an unwritten open is for the worker that owns the session. */
  ghost predicate HoldersInv(s: Sys) {
    && (forall id :: id in s.holders && id in s.pool.sessions ==>
          s.holders[id].worker == s.pool.sessions[id].workerId && s.holders[id].sink == s.pool.sessions[id].sink)
    && (forall id :: id in s.unsent ==>
          && s.unsent[id].1 < s.sinks
          && s.unsent[id].2.SessionOpen? && s.unsent[id].2.sessionId == id
          && (Connected(s, s.unsent[id].0, s.unsent[id].1) ==>
                s.unsent[id].0 in s.pool.workerSessions && s.pool.workerSessions[s.unsent[id].0] == id))
  }

  /** A command in flight for the session that owns a worker is on that worker. */
  ghost predicate InflightHome(s: Sys) {
    forall rid, w :: (rid in s.pool.inflight && w in s.pool.workerSessions
                      && s.pool.workerSessions[w] == s.pool.inflight[rid].sessionId)
      ==> s.pool.inflight[rid].workerId == w
  }

  /** Every session and command the state mentions has been handed out. */
  ghost predicate UsedInv(s: Sys) {
    && s.pool.sessions.Keys <= s.usedSessions
    && (forall w :: w in s.pool.workerSessions ==> s.pool.workerSessions[w] in s.usedSessions)
    && s.holders.Keys <= s.usedSessions && s.unsent.Keys <= s.usedSessions
    && (forall rid :: rid in s.pool.inflight ==>
          s.pool.inflight[rid].sessionId in s.usedSessions && rid in s.usedCommands)
    && (forall w, i :: w in s.conns && 0 <= i < |s.conns[w].down| && s.conns[w].down[i].SessionRun? ==>
          s.conns[w].down[i].sessionId in s.usedSessions)
  }

  /** The bookkeeping of sinks and identifiers. */
  ghost predicate BooksInv(s: Sys) { SinksInv(s) && HoldersInv(s) && InflightHome(s) && UsedInv(s) }

  ghost predicate LinksInv(s: Sys) {
    forall w :: w in s.conns ==> ConnInv(SliceOf(s, w, s.conns[w].sink), s.conns[w])
  }

  ghost predicate SysInv(s: Sys) {
    && P.PoolInv(s.pool)
    && BooksInv(s)
    && LinksInv(s)
  }

  /** A step that leaves the connections, the idle queue and the owners alone. It
      may change records, lock holders that act for an existing record, and add
      or remove commands in flight. */
  ghost predicate Local(s: Sys, s': Sys) {
    && s'.conns == s.conns && s'.sinks == s.sinks && s'.unsent == s.unsent
    && s'.usedSessions == s.usedSessions && s.usedCommands <= s'.usedCommands
    && s'.pool.idle == s.pool.idle && s'.pool.liveness == s.pool.liveness
    && s'.pool.workerSessions == s.pool.workerSessions
    && s'.pool.sessions.Keys <= s.pool.sessions.Keys
    && (forall id :: id in s'.pool.sessions ==>
          s'.pool.sessions[id].workerId == s.pool.sessions[id].workerId
          && s'.pool.sessions[id].sink == s.pool.sessions[id].sink)
    && (forall id :: id in s'.holders ==>
          || (id in s.holders && s'.holders[id].worker == s.holders[id].worker
              && s'.holders[id].sink == s.holders[id].sink)
          || (id in s.pool.sessions && s'.holders[id].worker == s.pool.sessions[id].workerId
              && s'.holders[id].sink == s.pool.sessions[id].sink))
    && (forall rid :: (rid in s'.pool.inflight
                       && !(rid in s.pool.inflight && s'.pool.inflight[rid] == s.pool.inflight[rid])) ==>
          HomeOf(s.pool, s'.pool.inflight[rid]) && s'.pool.inflight[rid].sessionId in s.usedSessions
          && rid in s'.usedCommands)
  }

  ghost predicate HomeOf(p: P.Pool, pending: P.Pending) {
    forall w :: w in p.workerSessions && p.workerSessions[w] == pending.sessionId ==> pending.workerId == w
  }

  lemma LocalBooks(s: Sys, s': Sys)
    requires BooksInv(s) && Local(s, s')
    ensures BooksInv(s')
  {
    LocalInflight(s, s');
    assert SinksInv(s') by { hide HoldersInv, InflightHome, UsedInv; }
    assert HoldersInv(s') by { hide SinksInv, InflightHome, UsedInv; }
    assert UsedInv(s') by { hide SinksInv, InflightHome, HoldersInv; }
  }

  lemma LocalInflight(s: Sys, s': Sys)
    requires InflightHome(s) && Local(s, s')
    ensures InflightHome(s')
  {
    forall rid, w | rid in s'.pool.inflight && w in s'.pool.workerSessions
                    && s'.pool.workerSessions[w] == s'.pool.inflight[rid].sessionId
      ensures s'.pool.inflight[rid].workerId == w
    {
      if !(rid in s.pool.inflight && s'.pool.inflight[rid] == s.pool.inflight[rid]) {
        assert HomeOf(s.pool, s'.pool.inflight[rid]);
      }
    }
  }

  // --------------------------------------------------------------- worker steps

  /** Changing one connection only, by a step of its worker or a frame written to it. */
  lemma ConnBooks(s: Sys, w: WorkerId, c: Conn)
    requires BooksInv(s) && w in s.conns && c.sink == s.conns[w].sink
    requires forall i :: 0 <= i < |c.down| && c.down[i].SessionRun? ==> c.down[i].sessionId in s.usedSessions
    ensures BooksInv(SetConn(s, w, c))
  {
    var s' := SetConn(s, w, c);
    assert SinksInv(s') by { hide HoldersInv, InflightHome, UsedInv; }
    assert HoldersInv(s') by { hide SinksInv, InflightHome, UsedInv; }
    assert InflightHome(s') by { hide SinksInv, HoldersInv, UsedInv; }
    assert UsedInv(s') by { hide SinksInv, InflightHome, HoldersInv; }
  }

  lemma OneConn(s: Sys, w: WorkerId, c: Conn)
    requires SysInv(s) && w in s.conns && c.sink == s.conns[w].sink
    requires ConnInv(SliceOf(s, w, c.sink), c)
    requires forall i :: 0 <= i < |c.down| && c.down[i].SessionRun? ==> c.down[i].sessionId in s.usedSessions
    ensures SysInv(SetConn(s, w, c))
  {
    hide ConnInv, P.PoolInv, Known, BooksInv;
    ConnBooks(s, w, c);
    var s' := SetConn(s, w, c);
    forall v | v in s'.conns ensures ConnInv(SliceOf(s', v, s'.conns[v].sink), s'.conns[v]) {
      assert SliceOf(s', v, s'.conns[v].sink) == SliceOf(s, v, s'.conns[v].sink);
    }
  }

  lemma WorkerStep(s: Sys, w: WorkerId, c: Conn)
    requires SysInv(s) && w in s.conns && c.sink == s.conns[w].sink
    requires c.down == s.conns[w].down || (s.conns[w].down != [] && c.down == s.conns[w].down[1..])
    requires ConnInv(SliceOf(s, w, c.sink), c)
    ensures SysInv(SetConn(s, w, c))
  {
    hide ConnInv, P.PoolInv, SinksInv, HoldersInv, InflightHome;
    var down := s.conns[w].down;
    forall i | 0 <= i < |c.down| && c.down[i].SessionRun? ensures c.down[i].sessionId in s.usedSessions {
      assert c.down[i] == down[i] || c.down[i] == down[i + 1];
    }
    OneConn(s, w, c);
  }

  lemma ReceivePreserves(s: Sys, w: WorkerId, spawnError: Option<string>, home: Option<string>)
    requires SysInv(s)
    ensures SysInv(DoReceive(s, w, spawnError, home))
  {
    hide ConnInv, P.PoolInv, SinksInv, HoldersInv, InflightHome, UsedInv, Receive;
    if w in s.conns && s.conns[w].down != [] {
      ReceiveInv(SliceOf(s, w, s.conns[w].sink), s.conns[w], spawnError, home);
      WorkerStep(s, w, Receive(s.conns[w], spawnError, home));
    }
  }

  lemma WorkPreserves(s: Sys, w: WorkerId, e: S.Event)
    requires SysInv(s)
    ensures SysInv(DoWork(s, w, e))
  {
    hide ConnInv, P.PoolInv, SinksInv, HoldersInv, InflightHome, UsedInv, Worked, S.Legal;
    if w in s.conns && s.conns[w].worker.Serving? && Internal(e) && S.Legal(s.conns[w].worker.sched, e) {
      WorkInv(SliceOf(s, w, s.conns[w].sink), s.conns[w], e);
      WorkerStep(s, w, Worked(s.conns[w], s.conns[w].worker.id, s.conns[w].worker.sched, e));
    }
  }

  lemma ReportPreserves(s: Sys, w: WorkerId, resetFailed: bool, exiting: bool, ok: bool)
    requires SysInv(s)
    ensures SysInv(DoReport(s, w, resetFailed, exiting, ok)) && SysInv(DoCrash(s, w))
  {
    hide ConnInv, P.PoolInv, SinksInv, HoldersInv, InflightHome, UsedInv, Report, Crash;
    if w in s.conns {
      ReportInv(SliceOf(s, w, s.conns[w].sink), s.conns[w], resetFailed, exiting, ok);
      WorkerStep(s, w, Report(s.conns[w], resetFailed, exiting, ok));
      CrashInv(SliceOf(s, w, s.conns[w].sink), s.conns[w]);
      WorkerStep(s, w, Crash(s.conns[w]));
    }
  }

  // ------------------------------------------------------------- frames written

  /** A frame that is neither an open nor a command of the worker's own session. */
  lemma PushPreserves(s: Sys, w: WorkerId, sink: nat, f: Frame)
    requires SysInv(s) && !f.SessionOpen?
    requires f.SessionRun? ==> f.sessionId in s.usedSessions
    requires f.SessionRun? && w in s.pool.workerSessions ==> s.pool.workerSessions[w] != f.sessionId
    ensures SysInv(Push(s, w, sink, f))
  {
    hide ConnInv, P.PoolInv, SinksInv, HoldersInv, InflightHome;
    if Connected(s, w, sink) {
      var c := s.conns[w];
      PushControlInv(SliceOf(s, w, sink), c, f);
      var c' := c.(down := c.down + [f]);
      forall i | 0 <= i < |c'.down| && c'.down[i].SessionRun? ensures c'.down[i].sessionId in s.usedSessions {
        assert i < |c.down| ==> c'.down[i] == c.down[i];
      }
      OneConn(s, w, c');
    }
  }

  lemma CutBooks(s: Sys, s': Sys, w: WorkerId)
    requires BooksInv(s) && s' == s.(conns := s.conns - {w})
    ensures BooksInv(s')
  {
    assert SinksInv(s') by { hide HoldersInv, InflightHome, UsedInv; }
    assert HoldersInv(s') by { hide SinksInv, InflightHome, UsedInv; }
    assert UsedInv(s') by { hide SinksInv, InflightHome, HoldersInv; }
  }

  /** Losing a connection. */
  lemma CutPreserves(s: Sys, s': Sys, w: WorkerId)
    requires SysInv(s) && s' == s.(conns := s.conns - {w})
    ensures SysInv(s')
  {
    hide ConnInv, P.PoolInv, BooksInv, Known;
    assert BooksInv(s') by { CutBooks(s, s', w); }
    forall v | v in s'.conns ensures ConnInv(SliceOf(s', v, s'.conns[v].sink), s'.conns[v]) {
      assert SliceOf(s', v, s'.conns[v].sink) == SliceOf(s, v, s.conns[v].sink);
    }
  }

  lemma SendOpenLinks(s: Sys, id: SessionId, ok: bool)
    requires SysInv(s) && id in s.unsent
    ensures LinksInv(DoSendOpen(s, id, ok))
  {
    hide ConnInv, P.PoolInv, UsedInv, InflightHome, SinksInv, Known;
    var w, sink, f := s.unsent[id].0, s.unsent[id].1, s.unsent[id].2;
    var s' := DoSendOpen(s, id, ok);
    forall v | v in s'.conns ensures ConnInv(SliceOf(s', v, s'.conns[v].sink), s'.conns[v]) {
      var sl := SliceOf(s, v, s.conns[v].sink);
      UnsentKnown(s, id, v, s.conns[v].sink);
      if v == w && Connected(s, w, sink) {
        PushOpenInv(sl, s.conns[v], f);
      }
    }
  }

  lemma UnsentKnown(s: Sys, id: SessionId, v: WorkerId, sink: nat)
    requires id in s.unsent
    ensures var sl := SliceOf(s, v, sink);
            var sl' := Known(s.pool, s.unsent - {id}, s.holders, v, sink);
            if v == s.unsent[id].0 && sink == s.unsent[id].1 && sl.owner == Some(id)
            then sl.unsent && sl' == sl.(unsent := false) else sl' == sl
    ensures v in s.pool.workerSessions ==> SliceOf(s, v, sink).owner == Some(s.pool.workerSessions[v])
  {
  }

  lemma HolderKnown(s: Sys, id: SessionId, v: WorkerId, sink: nat)
    requires id in s.holders
    ensures var sl := SliceOf(s, v, sink);
            var sl' := Known(s.pool, s.unsent, s.holders - {id}, v, sink);
            if s.holders[id].Registered? && v == s.holders[id].worker && sink == s.holders[id].sink
               && sl.owner == Some(id)
            then sl.pending == Some((s.holders[id].execute.requestId, s.holders[id].mode))
                 && sl' == sl.(pending := None)
            else sl' == sl
  {
  }

  /** A frame written or a connection cut, as far as the bookkeeping of sinks and ids goes. */
  lemma WriteRest(s: Sys, w: WorkerId, sink: nat, f: Frame, ok: bool)
    requires BooksInv(s)
    requires f.SessionRun? ==> f.sessionId in s.usedSessions
    ensures BooksInv(Write(s, w, sink, f, ok))
  {
    if ok && Connected(s, w, sink) {
      var down' := s.conns[w].down + [f];
      assert forall i :: 0 <= i < |s.conns[w].down| ==> down'[i] == s.conns[w].down[i];
    }
  }

  lemma SendOpenBooks(s: Sys, id: SessionId, ok: bool)
    requires BooksInv(s) && id in s.unsent
    ensures BooksInv(DoSendOpen(s, id, ok))
  {
    var t, s1 := s.unsent[id], s.(unsent := s.unsent - {id});
    assert HoldersInv(s1) by { hide SinksInv, InflightHome, UsedInv; }
    assert UsedInv(s1) by { hide SinksInv, InflightHome, HoldersInv; }
    hide Write;
    WriteRest(s1, t.0, t.1, t.2, ok);
  }

  lemma SendOpenPreserves(s: Sys, id: SessionId, ok: bool)
    requires SysInv(s)
    ensures SysInv(DoSendOpen(s, id, ok))
  {
    hide ConnInv, P.PoolInv, BooksInv, LinksInv;
    if id in s.unsent {
      SendOpenLinks(s, id, ok);
      SendOpenBooks(s, id, ok);
    }
  }

  lemma SendRunLinks(s: Sys, id: SessionId, ok: bool)
    requires SysInv(s) && id in s.holders && s.holders[id].Registered?
    ensures LinksInv(DoSendRun(s, id, ok))
  {
    hide ConnInv, P.PoolInv, UsedInv, InflightHome, SinksInv, HoldersInv, Known;
    var h := s.holders[id];
    var s' := DoSendRun(s, id, ok);
    forall v | v in s'.conns ensures ConnInv(SliceOf(s', v, s'.conns[v].sink), s'.conns[v]) {
      var sl := SliceOf(s, v, s.conns[v].sink);
      HolderKnown(s, id, v, s.conns[v].sink);
      if v == h.worker && Connected(s, v, h.sink) {
        if sl.owner == Some(id) {
          PushRunInv(sl, id, s.conns[v], h.execute, h.mode);
        } else {
          PushControlInv(sl, s.conns[v], SessionRun(id, h.execute, h.mode));
        }
      }
    }
  }

  lemma SendRunPreserves(s: Sys, id: SessionId, ok: bool)
    requires SysInv(s)
    ensures SysInv(DoSendRun(s, id, ok))
  {
    hide ConnInv, P.PoolInv;
    if id in s.holders && s.holders[id].Registered? {
      SendRunLinks(s, id, ok);
      var h := s.holders[id];
      WriteRest(s.(holders := s.holders - {id}, log := s.log[id := LogOf(s, id) + [RunSent]]),
                h.worker, h.sink, SessionRun(id, h.execute, h.mode), ok);
    }
  }

  lemma SendClosePreserves(s: Sys, id: SessionId, ok: bool)
    requires SysInv(s)
    ensures SysInv(DoSendClose(s, id, ok))
  {
    hide ConnInv, P.PoolInv;
    if id in s.holders && s.holders[id].Closer? {
      var h := s.holders[id];
      var s1 := s.(holders := s.holders - {id}, log := s.log[id := LogOf(s, id) + [CloseSent]]);
      forall v | v in s1.conns ensures ConnInv(SliceOf(s1, v, s1.conns[v].sink), s1.conns[v]) {
        assert SliceOf(s1, v, s1.conns[v].sink) == SliceOf(s, v, s.conns[v].sink);
      }
      PushPreserves(s1, h.worker, h.sink, SessionClose(id));
      CutPreserves(s1, s1.(conns := s1.conns - {h.worker}), h.worker);
    }
  }

  // ---------------------------------------------------------- pool-only steps

  /** The pool changed in nothing that concerns a connection. */
  ghost predicate Quiet(p: P.Pool, p': P.Pool) {
    && p'.idle == p.idle && p'.inflight == p.inflight && p'.liveness == p.liveness
    && p'.workerSessions == p.workerSessions
    && p'.sessions.Keys == p.sessions.Keys
    && (forall id :: id in p.sessions ==>
          && p'.sessions[id].workerId == p.sessions[id].workerId
          && p'.sessions[id].sink == p.sessions[id].sink
          && p'.sessions[id].state == p.sessions[id].state)
  }

  lemma QuietBooks(s: Sys, s': Sys)
    requires BooksInv(s) && Quiet(s.pool, s'.pool)
    requires s'.conns == s.conns && s'.sinks == s.sinks && s'.unsent == s.unsent && s'.holders == s.holders
    requires s'.usedSessions == s.usedSessions && s'.usedCommands == s.usedCommands
    ensures BooksInv(s')
  {
    hide BooksInv;
    LocalBooks(s, s');
  }

  lemma QuietPreserves(s: Sys, s': Sys)
    requires SysInv(s) && Quiet(s.pool, s'.pool) && P.PoolInv(s'.pool)
    requires s'.conns == s.conns && s'.sinks == s.sinks && s'.unsent == s.unsent && s'.holders == s.holders
    requires s'.usedSessions == s.usedSessions && s'.usedCommands == s.usedCommands
    ensures SysInv(s')
  {
    hide ConnInv, P.PoolInv, BooksInv;
    QuietBooks(s, s');
    forall v | v in s'.conns ensures ConnInv(SliceOf(s', v, s'.conns[v].sink), s'.conns[v]) {
      assert SliceOf(s', v, s'.conns[v].sink) == SliceOf(s, v, s.conns[v].sink);
    }
  }

  /** Only the handles changed. */
  lemma HandlesPreserve(s: Sys, s': Sys)
    requires SysInv(s) && s'.pool == s.pool.(handles := s'.pool.handles)
    requires s'.conns == s.conns && s'.sinks == s.sinks && s'.unsent == s.unsent && s'.holders == s.holders
    requires s'.usedSessions == s.usedSessions && s'.usedCommands == s.usedCommands
    ensures SysInv(s')
  {
    hide ConnInv, SinksInv, HoldersInv, InflightHome, UsedInv, LinksInv, P.IdleInv, P.OwnerInv, P.RecordsInv,
         P.CountInv, P.InflightInv;
    QuietPreserves(s, s');
  }

  lemma ForgetSessionsPreserves(s: Sys, age: P.Gate)
    requires SysInv(s)
    ensures SysInv(s.(pool := P.Forget(s.pool, age)))
  {
    hide ConnInv, P.PoolInv, BooksInv;
    P.ForgetInv(s.pool, age);
    var s' := s.(pool := P.Forget(s.pool, age));
    LocalBooks(s, s');
    forall v | v in s'.conns ensures ConnInv(SliceOf(s', v, s'.conns[v].sink), s'.conns[v]) {
      var sl, sl' := SliceOf(s, v, s.conns[v].sink), SliceOf(s', v, s.conns[v].sink);
      if sl.owner.Some? {
        KeepsHolding(s.pool, age, sl.owner.value);
        RestateInv(sl, sl', s.conns[v]);
      }
    }
  }

  lemma KeepsHolding(p: P.Pool, age: P.Gate, id: SessionId)
    requires P.PoolInv(p)
    ensures id in p.sessions && P.Holding(p.sessions[id].state) ==> id in P.Forget(p, age).sessions
  {
  }

  /** The send lock taken for a submission, or given back before anything is registered. */
  lemma LockPreserves(s: Sys, s': Sys, id: SessionId)
    requires SysInv(s) && s' == s.(holders := s'.holders)
    requires s'.holders.Keys <= s.holders.Keys + {id} && id in s.usedSessions
    requires forall i :: i in s'.holders && i != id ==> i in s.holders && s'.holders[i] == s.holders[i]
    requires forall i :: i in s.holders && i != id ==> i in s'.holders
    requires id in s.holders ==> !s.holders[id].Registered?
    requires id in s'.holders ==>
               && !s'.holders[id].Registered? && id in s.pool.sessions
               && s'.holders[id].worker == s.pool.sessions[id].workerId
               && s'.holders[id].sink == s.pool.sessions[id].sink
    ensures SysInv(s')
  {
    hide ConnInv, P.PoolInv, SinksInv, HoldersInv, InflightHome, UsedInv, Known;
    assert BooksInv(s') by { LockBooks(s, s', id); }
    forall v | v in s'.conns ensures ConnInv(SliceOf(s', v, s'.conns[v].sink), s'.conns[v]) {
      LockKnown(s, s', v, s.conns[v].sink, id);
    }
  }

  lemma LockHolders(s: Sys, s': Sys, id: SessionId)
    requires HoldersInv(s) && UsedInv(s) && s' == s.(holders := s'.holders)
    requires s'.holders.Keys <= s.holders.Keys + {id} && id in s.usedSessions
    requires forall i :: i in s'.holders && i != id ==> i in s.holders && s'.holders[i] == s.holders[i]
    requires id in s'.holders ==>
               id in s.pool.sessions
               && s'.holders[id].worker == s.pool.sessions[id].workerId
               && s'.holders[id].sink == s.pool.sessions[id].sink
    ensures HoldersInv(s') && UsedInv(s')
  {
    assert s'.conns == s.conns && s'.pool == s.pool && s'.unsent == s.unsent;
    assert UsedInv(s') by { hide HoldersInv; }
    assert HoldersInv(s') by { hide UsedInv; }
  }

  lemma LockBooks(s: Sys, s': Sys, id: SessionId)
    requires BooksInv(s) && s' == s.(holders := s'.holders)
    requires s'.holders.Keys <= s.holders.Keys + {id} && id in s.usedSessions
    requires forall i :: i in s'.holders && i != id ==> i in s.holders && s'.holders[i] == s.holders[i]
    requires id in s'.holders ==>
               id in s.pool.sessions
               && s'.holders[id].worker == s.pool.sessions[id].workerId
               && s'.holders[id].sink == s.pool.sessions[id].sink
    ensures BooksInv(s')
  {
    hide HoldersInv, UsedInv;
    LockHolders(s, s', id);
    assert SinksInv(s') by { hide InflightHome; }
    assert InflightHome(s') by { hide SinksInv; }
  }

  lemma LockKnown(s: Sys, s': Sys, v: WorkerId, sink: nat, id: SessionId)
    requires s' == s.(holders := s'.holders)
    requires forall i :: i in s'.holders && i != id ==> i in s.holders && s'.holders[i] == s.holders[i]
    requires forall i :: i in s.holders && i != id ==> i in s'.holders
    requires id in s.holders ==> !s.holders[id].Registered?
    requires id in s'.holders ==> !s'.holders[id].Registered?
    ensures SliceOf(s', v, sink) == SliceOf(s, v, sink)
  {
  }

  lemma BeginSubmitPreserves(s: Sys, id: SessionId, rid: ExecId, command: string, mode: Mode)
    requires SysInv(s)
    ensures SysInv(DoBeginSubmit(s, id, rid, command, mode)) && SysInv(DoAbandon(s, id))
  {
    hide ConnInv, P.PoolInv, SinksInv, HoldersInv, InflightHome, LinksInv;
    if DoBeginSubmit(s, id, rid, command, mode) != s {
      LockPreserves(s, DoBeginSubmit(s, id, rid, command, mode), id);
    }
    if DoAbandon(s, id) != s {
      LockPreserves(s, DoAbandon(s, id), id);
    }
  }

  lemma RegisterLinks(s: Sys, id: SessionId, now: int)
    requires SysInv(s) && id in s.holders && s.holders[id].Submitting?
    requires s.holders[id].execute.requestId !in s.usedCommands
    requires P.Refusal(s.pool, id, s.holders[id].mode).None?
    ensures LinksInv(DoRegister(s, id, now))
  {
    hide ConnInv, P.PoolInv, InflightHome, Known;
    var h := s.holders[id];
    var s' := DoRegister(s, id, now);
    forall v | v in s'.conns ensures ConnInv(SliceOf(s', v, s'.conns[v].sink), s'.conns[v]) {
      RegisterKnown(s, id, now, v, s.conns[v].sink);
      if v in s.pool.workerSessions && s.pool.workerSessions[v] == id {
        assert h.sink == s.conns[v].sink;
        OwnerRecord(s, v);
        RegisteredInv(SliceOf(s, v, h.sink), s.conns[v], h.execute.requestId, h.mode);
      }
    }
  }

  lemma OwnerRecord(s: Sys, v: WorkerId)
    requires P.PoolInv(s.pool) && v in s.pool.workerSessions && s.pool.workerSessions[v] in s.pool.sessions
    ensures s.pool.sessions[s.pool.workerSessions[v]].workerId == v
  {
  }

  lemma RegisterKnown(s: Sys, id: SessionId, now: int, v: WorkerId, sink: nat)
    requires UsedInv(s) && id in s.holders && s.holders[id].Submitting?
    requires s.holders[id].execute.requestId !in s.usedCommands
    requires P.Refusal(s.pool, id, s.holders[id].mode).None?
    ensures var h, sl, s' := s.holders[id], SliceOf(s, v, sink), DoRegister(s, id, now);
            var rid := h.execute.requestId;
            if sl.owner == Some(id)
            then sl.active && sl.present && sl.pending.None? && rid !in sl.inflight
                 && (h.worker == v && h.sink == sink ==>
                       SliceOf(s', v, sink) == sl.(inflight := sl.inflight[rid := h.mode],
                                                   pending := Some((rid, h.mode))))
            else SliceOf(s', v, sink) == sl
    ensures v in s.pool.workerSessions ==> SliceOf(s, v, sink).owner == Some(s.pool.workerSessions[v])
    ensures v !in s.pool.workerSessions ==> SliceOf(s, v, sink).owner.None?
  {
    hide P.InflightOf;
    var h, s' := s.holders[id], DoRegister(s, id, now);
    if v in s.pool.workerSessions {
      NewInflight(s.pool.inflight, h.execute.requestId, P.Pending(h.worker, h.sink, id, h.mode),
                  s.pool.workerSessions[v]);
      FreshInflight(s, h.execute.requestId, s.pool.workerSessions[v]);
    }
  }

  lemma NewInflight(inflight: map<ExecId, P.Pending>, rid: ExecId, pending: P.Pending, i: SessionId)
    requires rid !in inflight
    ensures P.InflightOf(inflight[rid := pending], i)
            == if pending.sessionId == i then P.InflightOf(inflight, i)[rid := pending.mode]
               else P.InflightOf(inflight, i)
  {
  }

  lemma FreshInflight(s: Sys, rid: ExecId, i: SessionId)
    requires UsedInv(s) && rid !in s.usedCommands
    ensures rid !in s.pool.inflight && rid !in P.InflightOf(s.pool.inflight, i)
  {
  }

  lemma RegisterShape(s: Sys, id: SessionId, now: int)
    requires id in s.holders && s.holders[id].Submitting?
    requires s.holders[id].execute.requestId !in s.usedCommands && P.Refusal(s.pool, id, s.holders[id].mode).None?
    ensures var h, s' := s.holders[id], DoRegister(s, id, now);
            var rid := h.execute.requestId;
            && id in s.pool.sessions && id in s'.pool.sessions
            && s' == s.(pool := s'.pool, usedCommands := s.usedCommands + {rid},
                        holders := s.holders[id := Registered(h.execute, h.mode, h.worker, h.sink)])
            && s'.pool == s.pool.(inflight := s.pool.inflight[rid := P.Pending(h.worker, h.sink, id, h.mode)],
                                  handles := s'.pool.handles, sessions := s.pool.sessions[id := s'.pool.sessions[id]])
            && s'.pool.sessions[id].workerId == s.pool.sessions[id].workerId
            && s'.pool.sessions[id].sink == s.pool.sessions[id].sink
  {
  }

  lemma RegisterRest(s: Sys, id: SessionId, now: int)
    requires P.PoolInv(s.pool) && BooksInv(s) && id in s.holders && s.holders[id].Submitting?
    requires s.holders[id].execute.requestId !in s.usedCommands && P.Refusal(s.pool, id, s.holders[id].mode).None?
    ensures BooksInv(DoRegister(s, id, now))
  {
    hide P.IdleInv, P.RecordsInv, P.CountInv, P.InflightInv, SinksInv, InflightHome, DoRegister, P.Refusal;
    var s' := DoRegister(s, id, now);
    RegisterShape(s, id, now);
    assert HomeOf(s.pool, s'.pool.inflight[s.holders[id].execute.requestId]);
    assert Local(s, s');
    LocalBooks(s, s');
  }

  lemma RegisterPreserves(s: Sys, id: SessionId, now: int)
    requires SysInv(s)
    ensures SysInv(DoRegister(s, id, now))
  {
    hide ConnInv, P.PoolInv, Known, SinksInv, LinksInv, InflightHome;
    if id in s.holders && s.holders[id].Submitting? && s.holders[id].execute.requestId !in s.usedCommands {
      var h := s.holders[id];
      if P.Refusal(s.pool, id, h.mode).None? {
        RegisterLinks(s, id, now);
        RegisterRest(s, id, now);
        P.SubmitInv(s.pool, id, h.execute.requestId, h.mode, h.worker, h.sink, now);
      } else {
        LockPreserves(s, DoRegister(s, id, now), id);
      }
    }
  }

  // ------------------------------------------------------------------- closing

  /** One record replaced. */
  lemma RecordKnown(s: Sys, s': Sys, id: SessionId, rec: P.Session, v: WorkerId, sink: nat)
    requires id in s.pool.sessions && s'.pool == s.pool.(sessions := s.pool.sessions[id := rec])
    requires s'.unsent == s.unsent
    requires forall i :: PendingOf(s'.holders, i, v, sink) == PendingOf(s.holders, i, v, sink)
    ensures var sl, sl' := SliceOf(s, v, sink), SliceOf(s', v, sink);
            && (sl.owner != Some(id) ==> sl' == sl)
            && (sl.owner == Some(id) ==>
                  && sl' == sl.(holding := P.Holding(rec.state), active := rec.state.Active?)
                  && sl.present && sl.holding == P.Holding(s.pool.sessions[id].state)
                  && sl.active == s.pool.sessions[id].state.Active?)
  {
  }

  lemma BeginCloseShape(s: Sys, id: SessionId, gate: Option<P.Gate>, waiter: nat)
    requires id !in s.holders
    ensures var s' := DoBeginClose(s, id, gate, waiter);
            || s' == s
            || (&& id in s.pool.sessions && P.Holding(s.pool.sessions[id].state)
                && var rec := s.pool.sessions[id];
                   var rec' := rec.(state := P.Closing, closed := rec.closed + [waiter]);
                   var pool := s.pool.(sessions := s.pool.sessions[id := rec']);
                   s' == s.(pool := pool)
                   || s' == s.(pool := pool, holders := s.holders[id := Closer(rec.workerId, rec.sink)]))
  {
  }

  lemma CloseKnown(s: Sys, id: SessionId, gate: Option<P.Gate>, waiter: nat, v: WorkerId, sink: nat)
    requires id !in s.holders
    ensures var sl, sl' := SliceOf(s, v, sink), SliceOf(DoBeginClose(s, id, gate, waiter), v, sink);
            && sl' == sl.(active := sl'.active)
            && (sl'.active ==> sl.active)
            && (sl.owner.None? ==> sl' == sl)
  {
    hide Known, DoBeginClose;
    BeginCloseShape(s, id, gate, waiter);
    var s' := DoBeginClose(s, id, gate, waiter);
    if s' != s {
      RecordKnown(s, s', id, s'.pool.sessions[id], v, sink);
    }
  }

  lemma BeginCloseLinks(s: Sys, id: SessionId, gate: Option<P.Gate>, waiter: nat)
    requires SysInv(s) && id !in s.holders
    ensures LinksInv(DoBeginClose(s, id, gate, waiter))
  {
    hide ConnInv, P.PoolInv, Known, SinksInv, UsedInv, HoldersInv, InflightHome, P.Close;
    var s' := DoBeginClose(s, id, gate, waiter);
    forall v | v in s'.conns ensures ConnInv(SliceOf(s', v, s'.conns[v].sink), s'.conns[v]) {
      var sl, sl' := SliceOf(s, v, s.conns[v].sink), SliceOf(s', v, s.conns[v].sink);
      CloseKnown(s, id, gate, waiter, v, s.conns[v].sink);
      if sl.owner.Some? {
        RestateInv(sl, sl', s.conns[v]);
      }
    }
  }

  lemma CloseLocal(s: Sys, s': Sys, id: SessionId, rec: P.Session)
    requires id in s.pool.sessions && id in s.usedSessions
    requires rec.workerId == s.pool.sessions[id].workerId && rec.sink == s.pool.sessions[id].sink
    requires var pool := s.pool.(sessions := s.pool.sessions[id := rec]);
             s' == s.(pool := pool)
             || s' == s.(pool := pool, holders := s.holders[id := Closer(rec.workerId, rec.sink)])
    ensures Local(s, s')
  {
  }

  lemma BeginCloseRest(s: Sys, id: SessionId, gate: Option<P.Gate>, waiter: nat)
    requires BooksInv(s) && id !in s.holders
    ensures BooksInv(DoBeginClose(s, id, gate, waiter))
  {
    hide SinksInv, HoldersInv, InflightHome, DoBeginClose, P.Holding, Local;
    BeginCloseShape(s, id, gate, waiter);
    var s' := DoBeginClose(s, id, gate, waiter);
    if s' != s {
      CloseLocal(s, s', id, s'.pool.sessions[id]);
      LocalBooks(s, s');
    }
  }

  lemma BeginClosePreserves(s: Sys, id: SessionId, gate: Option<P.Gate>, waiter: nat)
    requires SysInv(s)
    ensures SysInv(DoBeginClose(s, id, gate, waiter))
  {
    hide ConnInv, P.PoolInv, Known, LinksInv, SinksInv, UsedInv, HoldersInv, InflightHome;
    if id !in s.holders {
      BeginCloseLinks(s, id, gate, waiter);
      BeginCloseRest(s, id, gate, waiter);
      P.CloseInv(s.pool, id, gate, waiter);
    }
  }

  // ------------------------------------------------------ arrival and creation

  lemma HelloPreserves(s: Sys, w: WorkerId, profile: string)
    requires SysInv(s)
    ensures SysInv(DoHello(s, w, profile))
  {
    hide ConnInv, P.PoolInv, LinksInv, BooksInv, Known;
    if w !in s.pool.liveness {
      P.RegisterInv(s.pool, w, profile, s.sinks);
      HelloBooks(s, w, profile);
      HelloLinks(s, w, profile);
    }
  }

  lemma HelloSinks(s: Sys, w: WorkerId, profile: string)
    requires P.PoolInv(s.pool) && SinksInv(s) && w !in s.pool.liveness
    ensures SinksInv(DoHello(s, w, profile))
  {
    hide P.CountInv, P.RecordsInv, P.InflightInv;
  }

  lemma HelloUsed(s: Sys, w: WorkerId, profile: string)
    requires UsedInv(s) && w !in s.pool.liveness
    ensures UsedInv(DoHello(s, w, profile))
  {
  }

  lemma HelloHolders(s: Sys, w: WorkerId, profile: string)
    requires HoldersInv(s) && InflightHome(s) && w !in s.pool.liveness && w !in s.conns
    ensures HoldersInv(DoHello(s, w, profile)) && InflightHome(DoHello(s, w, profile))
  {
    var s' := DoHello(s, w, profile);
    assert s'.pool.workerSessions == s.pool.workerSessions && s'.pool.sessions == s.pool.sessions;
    assert InflightHome(s') by { hide HoldersInv; }
    forall id | id in s'.unsent && Connected(s', s'.unsent[id].0, s'.unsent[id].1)
      ensures Connected(s, s.unsent[id].0, s.unsent[id].1)
    {
      assert s.unsent[id].1 < s.sinks;
    }
  }

  lemma HelloBooks(s: Sys, w: WorkerId, profile: string)
    requires P.PoolInv(s.pool) && BooksInv(s) && w !in s.pool.liveness
    ensures BooksInv(DoHello(s, w, profile))
  {
    hide P.PoolInv, HoldersInv, InflightHome, UsedInv, DoHello;
    HelloSinks(s, w, profile);
    HelloUsed(s, w, profile);
    HelloHolders(s, w, profile);
  }

  lemma HelloLinks(s: Sys, w: WorkerId, profile: string)
    requires SysInv(s) && w !in s.pool.liveness
    ensures LinksInv(DoHello(s, w, profile))
  {
    hide ConnInv, P.CountInv, P.RecordsInv, P.InflightInv, HoldersInv, InflightHome, UsedInv;
    var s' := DoHello(s, w, profile);
    forall v | v in s'.conns ensures ConnInv(SliceOf(s', v, s'.conns[v].sink), s'.conns[v]) {
      if v == w {
        NewConn(SliceOf(s', w, s.sinks), s'.conns[w]);
      } else {
        HelloIdle(s.pool.idle, P.Entry(w, profile, s.sinks), v);
        assert SliceOf(s', v, s'.conns[v].sink) == SliceOf(s, v, s.conns[v].sink);
      }
    }
  }

  lemma NewConn(sl: Slice, c: Conn)
    requires sl.owner.None? && c.down == [] && c.up == [] && c.worker.Awaiting?
    ensures ConnInv(sl, c)
  {
  }

  lemma HelloIdle(idle: seq<P.Entry>, e: P.Entry, v: WorkerId)
    ensures Idle(idle + [e], v) <==> Idle(idle, v) || v == e.workerId
  {
    assert (idle + [e])[|idle|] == e;
    if Idle(idle, v) {
      var i :| 0 <= i < |idle| && idle[i].workerId == v;
      assert (idle + [e])[i].workerId == v;
    }
  }

  lemma TakenIdle(idle: seq<P.Entry>, i: nat, v: WorkerId)
    requires i < |idle| && (forall j, k :: 0 <= j < k < |idle| ==> idle[j].workerId != idle[k].workerId)
    ensures Idle(P.RemoveAt(idle, i), v) <==> Idle(idle, v) && v != idle[i].workerId
  {
    var idle' := P.RemoveAt(idle, i);
    forall j | 0 <= j < |idle'| ensures idle'[j] == idle[if j < i then j else j + 1] {
    }
    if Idle(idle, v) && v != idle[i].workerId {
      var j :| 0 <= j < |idle| && idle[j].workerId == v;
      assert idle'[if j < i then j else j - 1].workerId == v;
    }
  }

  lemma IsIdle(idle: seq<P.Entry>, i: nat)
    requires i < |idle|
    ensures Idle(idle, idle[i].workerId)
  {
  }

  lemma NoInflight(s: Sys, id: SessionId)
    requires UsedInv(s) && id !in s.usedSessions
    ensures P.InflightOf(s.pool.inflight, id) == map[]
  {
  }

  lemma CreateShape(s: Sys, id: SessionId, profile: string, inputs: P.Inputs, now: int)
    requires id !in s.usedSessions && P.Create(s.pool, profile, id, inputs, now).Ok?
    ensures var e, i := P.Create(s.pool, profile, id, inputs, now).value.1, P.FirstOf(s.pool.idle, profile);
            && i < |s.pool.idle| && e == s.pool.idle[i]
            && DoCreate(s, id, profile, inputs, now)
               == s.(pool := s.pool.(idle := P.RemoveAt(s.pool.idle, i),
                                     workerSessions := s.pool.workerSessions[e.workerId := id],
                                     sessions := s.pool.sessions[id := P.NewSession(e, inputs, now)]),
                     usedSessions := s.usedSessions + {id},
                     unsent := s.unsent[id := (e.workerId, e.sink,
                                               SessionOpen(id, inputs.workingDir, inputs.env, inputs.dropTo))])
  {
  }

  lemma CreateKnown(s: Sys, id: SessionId, profile: string, inputs: P.Inputs, now: int, v: WorkerId, sink: nat)
    requires P.PoolInv(s.pool) && UsedInv(s) && id !in s.usedSessions && P.Create(s.pool, profile, id, inputs, now).Ok?
    ensures var e := P.Create(s.pool, profile, id, inputs, now).value.1;
            var sl, sl' := SliceOf(s, v, sink), SliceOf(DoCreate(s, id, profile, inputs, now), v, sink);
            if v == e.workerId
            then sl.owner.None? && sl.idle
                 && (e.sink == sink ==> sl' == Slice(Some(id), sl'.idle, true, true, false, true, None, map[]))
            else sl' == sl
  {
    hide P.OwnerInv, P.RecordsInv, P.CountInv, P.InflightInv, P.InflightOf, P.RemoveAt, Idle, DoCreate, P.Create,
         P.FirstOf;
    CreateShape(s, id, profile, inputs, now);
    var i := P.FirstOf(s.pool.idle, profile);
    IsIdle(s.pool.idle, i);
    TakenIdle(s.pool.idle, i, v);
    NoInflight(s, id);
  }

  lemma CreateLinks(s: Sys, id: SessionId, profile: string, inputs: P.Inputs, now: int)
    requires SysInv(s) && id !in s.usedSessions && P.Create(s.pool, profile, id, inputs, now).Ok?
    ensures LinksInv(DoCreate(s, id, profile, inputs, now))
  {
    hide ConnInv, P.PoolInv, Known, InflightHome, HoldersInv;
    var s' := DoCreate(s, id, profile, inputs, now);
    var e := P.Create(s.pool, profile, id, inputs, now).value.1;
    forall v | v in s'.conns ensures ConnInv(SliceOf(s', v, s'.conns[v].sink), s'.conns[v]) {
      var c := s.conns[v];
      CreateKnown(s, id, profile, inputs, now, v, c.sink);
      if v == e.workerId {
        FreshCarried(c.down, id);
        Allocate(SliceOf(s, v, c.sink), SliceOf(s', v, c.sink), id, c);
      }
    }
  }

  lemma {:induction false} FreshCarried(down: seq<Frame>, id: SessionId)
    requires forall i :: 0 <= i < |down| && down[i].SessionRun? ==> down[i].sessionId != id
    ensures Carried(down, id) == multiset{}
  {
    if down != [] {
      assert forall i :: 0 <= i < |down[1..]| ==> down[1..][i] == down[i + 1];
      FreshCarried(down[1..], id);
    }
  }

  /** An idle worker is handed to a new session. */
  lemma Allocate(sl: Slice, sl': Slice, id: SessionId, c: Conn)
    requires ConnInv(sl, c) && sl.owner.None? && sl.idle && Carried(c.down, id) == multiset{}
    requires sl' == Slice(Some(id), sl'.idle, true, true, false, true, None, map[])
    ensures ConnInv(sl', c)
  {
    assert WaitingOk(sl', id, c);
  }

  lemma CreateSinks(s: Sys, id: SessionId, profile: string, inputs: P.Inputs, now: int)
    requires P.PoolInv(s.pool) && BooksInv(s) && id !in s.usedSessions && P.Create(s.pool, profile, id, inputs, now).Ok?
    ensures SinksInv(DoCreate(s, id, profile, inputs, now))
  {
    hide P.RecordsInv, P.CountInv, P.InflightInv, HoldersInv, InflightHome;
    var i := P.FirstOf(s.pool.idle, profile);
    var idle' := P.RemoveAt(s.pool.idle, i);
    forall j | 0 <= j < |idle'| ensures idle'[j] == s.pool.idle[if j < i then j else j + 1] {
    }
  }

  lemma CreateHolders(s: Sys, id: SessionId, profile: string, inputs: P.Inputs, now: int)
    requires P.PoolInv(s.pool) && BooksInv(s) && id !in s.usedSessions && P.Create(s.pool, profile, id, inputs, now).Ok?
    ensures HoldersInv(DoCreate(s, id, profile, inputs, now))
  {
    hide P.RecordsInv, P.CountInv, P.InflightInv, P.OwnerInv, InflightHome, P.RemoveAt, DoCreate, P.Create, P.FirstOf;
    CreateShape(s, id, profile, inputs, now);
    var i := P.FirstOf(s.pool.idle, profile);
    var e := s.pool.idle[i];
    var s' := DoCreate(s, id, profile, inputs, now);
    assert e.workerId !in s.pool.workerSessions && e.sink < s.sinks;
    assert id !in s.holders && id !in s.unsent;
    forall j | j in s'.unsent && Connected(s', s'.unsent[j].0, s'.unsent[j].1)
      ensures s'.unsent[j].0 in s'.pool.workerSessions && s'.pool.workerSessions[s'.unsent[j].0] == j
    {
      if j != id {
        assert s'.unsent[j] == s.unsent[j] && Connected(s, s.unsent[j].0, s.unsent[j].1);
        assert s.unsent[j].0 != e.workerId;
      }
    }
  }

  lemma CreateRest(s: Sys, id: SessionId, profile: string, inputs: P.Inputs, now: int)
    requires P.PoolInv(s.pool) && BooksInv(s) && id !in s.usedSessions && P.Create(s.pool, profile, id, inputs, now).Ok?
    ensures BooksInv(DoCreate(s, id, profile, inputs, now))
  {
    hide P.PoolInv;
    var s' := DoCreate(s, id, profile, inputs, now);
    CreateSinks(s, id, profile, inputs, now);
    CreateHolders(s, id, profile, inputs, now);
    assert InflightHome(s') by { hide SinksInv, HoldersInv; }
    assert UsedInv(s') by { hide SinksInv, InflightHome, HoldersInv; }
  }

  lemma CreatePreserves(s: Sys, id: SessionId, profile: string, inputs: P.Inputs, now: int)
    requires SysInv(s)
    ensures SysInv(DoCreate(s, id, profile, inputs, now))
  {
    hide ConnInv, P.PoolInv, Known, LinksInv, SinksInv, HoldersInv, InflightHome;
    if id !in s.usedSessions && P.Create(s.pool, profile, id, inputs, now).Ok? {
      CreateLinks(s, id, profile, inputs, now);
      CreateRest(s, id, profile, inputs, now);
      P.CreateInv(s.pool, profile, id, inputs, now);
    }
  }

  // ------------------------------------------------------------- frames read

  /** A frame read off a connection. */
  function Popped(s: Sys, w: WorkerId): Sys
    requires w in s.conns && s.conns[w].up != []
  {
    SetConn(s, w, s.conns[w].(up := s.conns[w].up[1..]))
  }

  lemma PoppedBooks(s: Sys, w: WorkerId)
    requires BooksInv(s) && w in s.conns && s.conns[w].up != []
    ensures BooksInv(Popped(s, w))
  {
    var s' := Popped(s, w);
    assert SinksInv(s') by { hide HoldersInv, InflightHome, UsedInv; }
    assert HoldersInv(s') by { hide SinksInv, InflightHome, UsedInv; }
    assert InflightHome(s') by { hide SinksInv, HoldersInv, UsedInv; }
    assert UsedInv(s') by { hide SinksInv, InflightHome, HoldersInv; }
  }

  /** The session that owns a worker owns no other. */
  lemma OneOwner(s: Sys, v: WorkerId, w: WorkerId, sink: nat, sink': nat)
    requires P.PoolInv(s.pool) && v != w
    ensures SliceOf(s, v, sink).owner.Some? ==> SliceOf(s, v, sink).owner != SliceOf(s, w, sink').owner
    ensures w in s.pool.workerSessions ==> SliceOf(s, w, sink').owner == Some(s.pool.workerSessions[w])
    ensures w !in s.pool.workerSessions ==> SliceOf(s, w, sink').owner == None
  {
  }

  lemma ReadyShape(p: P.Pool, w: WorkerId, id: SessionId, error: Option<string>, now: int)
    ensures var p' := P.SessionReady(p, w, id, error, now);
            || p' == p
            || (&& id in p.sessions && id in p'.sessions
                && p' == p.(sessions := p.sessions[id := p'.sessions[id]])
                && p'.sessions[id].workerId == p.sessions[id].workerId && p'.sessions[id].sink == p.sessions[id].sink
                && (error.None? ==> P.Holding(p'.sessions[id].state) == P.Holding(p.sessions[id].state)))
  {
  }

  lemma ReadyPreserves(s: Sys, w: WorkerId, now: int)
    requires SysInv(s) && w in s.conns && s.conns[w].up != [] && s.conns[w].up[0].SessionReady?
    ensures SysInv(DoDeliver(s, w, now))
  {
    hide ConnInv, P.PoolInv, BooksInv, Known, P.SessionReady;
    var c := s.conns[w];
    var id, error := c.up[0].sessionId, c.up[0].error;
    var s1, s' := Popped(s, w), DoDeliver(s, w, now);
    UpFrame(SliceOf(s, w, c.sink), c);
    ReadyShape(s.pool, w, id, error, now);
    P.ReadyInv(s.pool, w, id, error, now);
    PoppedBooks(s, w);
    LocalBooks(s1, s');
    forall v | v in s'.conns ensures ConnInv(SliceOf(s', v, s'.conns[v].sink), s'.conns[v]) {
      var sl, sl' := SliceOf(s, v, s.conns[v].sink), SliceOf(s', v, s.conns[v].sink);
      if s'.pool != s.pool {
        RecordKnown(s, s', id, s'.pool.sessions[id], v, s.conns[v].sink);
      }
      if v == w {
        DeliverReadyInv(sl, sl', c);
      } else {
        OneOwner(s, v, w, s.conns[v].sink, c.sink);
      }
    }
  }

  /** Everything about a worker but its session's commands is as it was. */
  lemma SameKnown(s: Sys, s': Sys, v: WorkerId, sink: nat)
    requires v in s'.pool.workerSessions <==> v in s.pool.workerSessions
    requires v in s.pool.workerSessions ==> s'.pool.workerSessions[v] == s.pool.workerSessions[v]
    requires Idle(s'.pool.idle, v) == Idle(s.pool.idle, v)
    requires s'.unsent == s.unsent && s'.holders == s.holders
    requires v in s.pool.workerSessions ==>
               var i := s.pool.workerSessions[v];
               (i in s'.pool.sessions <==> i in s.pool.sessions)
               && (i in s.pool.sessions ==> s'.pool.sessions[i].state == s.pool.sessions[i].state)
    ensures var sl, sl' := SliceOf(s, v, sink), SliceOf(s', v, sink);
            if v in s.pool.workerSessions
            then sl.owner == Some(s.pool.workerSessions[v])
                 && sl.inflight == P.InflightOf(s.pool.inflight, s.pool.workerSessions[v])
                 && sl' == sl.(inflight := P.InflightOf(s'.pool.inflight, s.pool.workerSessions[v]))
            else sl' == sl && sl.owner.None?
  {
  }

  lemma InflightMinus(inflight: map<ExecId, P.Pending>, gone: set<ExecId>, id: SessionId, i: SessionId)
    requires forall rid :: rid in gone && rid in inflight ==> inflight[rid].sessionId == id
    ensures P.InflightOf(inflight - gone, i)
            == if i == id then P.InflightOf(inflight, i) - gone else P.InflightOf(inflight, i)
  {
  }

  lemma CompleteKnown(s: Sys, s': Sys, rid: ExecId, now: int, v: WorkerId, sink: nat)
    requires s'.pool == P.CompleteRequest(s.pool, rid, now) && s'.unsent == s.unsent && s'.holders == s.holders
    requires rid in s.pool.inflight
    ensures var sl, sl' := SliceOf(s, v, sink), SliceOf(s', v, sink);
            if sl.owner == Some(s.pool.inflight[rid].sessionId)
            then sl' == sl.(inflight := sl.inflight - {rid}) else sl' == sl
  {
    hide Known, P.InflightOf;
    SameKnown(s, s', v, sink);
    if v in s.pool.workerSessions {
      InflightMinus(s.pool.inflight, {rid}, s.pool.inflight[rid].sessionId, s.pool.workerSessions[v]);
    }
  }

  lemma InSlice(s: Sys, w: WorkerId, sink: nat, rid: ExecId)
    requires rid in SliceOf(s, w, sink).inflight
    ensures rid in s.pool.inflight && SliceOf(s, w, sink).owner == Some(s.pool.inflight[rid].sessionId)
  {
  }

  lemma CompleteShape(p: P.Pool, rid: ExecId, now: int)
    ensures var p' := P.CompleteRequest(p, rid, now);
            && p' == p.(inflight := p.inflight - {rid}, sessions := p'.sessions)
            && (p'.sessions == p.sessions
                || (&& rid in p.inflight && p.inflight[rid].sessionId in p.sessions
                    && var id := p.inflight[rid].sessionId;
                       && id in p'.sessions && p'.sessions == p.sessions[id := p'.sessions[id]]
                       && p'.sessions[id].workerId == p.sessions[id].workerId
                       && p'.sessions[id].sink == p.sessions[id].sink))
  {
    if rid !in p.inflight {
      assert p.inflight - {rid} == p.inflight;
    }
  }

  lemma ResultLocal(s: Sys, s': Sys, rid: ExecId, now: int)
    requires s'.pool == P.CompleteRequest(s.pool, rid, now) && s'.unsent == s.unsent && s'.holders == s.holders
    requires s'.conns == s.conns && s'.sinks == s.sinks && s'.usedSessions == s.usedSessions
    requires s'.usedCommands == s.usedCommands
    ensures Local(s, s')
  {
    hide P.CompleteRequest;
    CompleteShape(s.pool, rid, now);
  }

  lemma ResultPreserves(s: Sys, w: WorkerId, now: int)
    requires SysInv(s) && w in s.conns && s.conns[w].up != [] && s.conns[w].up[0].ResultOf?
    ensures SysInv(DoDeliver(s, w, now))
  {
    hide ConnInv, P.PoolInv, BooksInv, Known, P.CompleteRequest, Local;
    var c := s.conns[w];
    var rid := c.up[0].result.requestId;
    var s1, s' := Popped(s, w), DoDeliver(s, w, now);
    var slw := SliceOf(s, w, c.sink);
    DeliverResultInv(slw, c, rid);
    InSlice(s, w, c.sink, rid);
    P.CompleteInv(s.pool, rid, now);
    PoppedBooks(s, w);
    ResultLocal(s1, s', rid, now);
    LocalBooks(s1, s');
    forall v | v in s'.conns ensures ConnInv(SliceOf(s', v, s'.conns[v].sink), s'.conns[v]) {
      CompleteKnown(s, s', rid, now, v, s.conns[v].sink);
      if v != w {
        OneOwner(s, v, w, s.conns[v].sink, c.sink);
      }
    }
  }

  lemma ClosedKnown(s: Sys, s': Sys, w: WorkerId, id: SessionId, error: Option<string>, reusable: bool, now: int,
                    v: WorkerId, sink: nat)
    requires P.PoolInv(s.pool) && w in s.pool.workerSessions && s.pool.workerSessions[w] == id
    requires P.SessionClosed(s.pool, w, id, error, reusable, now).Some?
    requires s'.pool == P.SessionClosed(s.pool, w, id, error, reusable, now).value.pool
    requires s'.unsent == s.unsent && s'.holders == s.holders
    requires v != w
    ensures SliceOf(s', v, sink) == SliceOf(s, v, sink)
  {
    hide P.RecordsInv, P.CountInv, P.InflightInv, P.IdleInv, Known;
    HelloIdle(s.pool.idle, P.Entry(w, s.pool.sessions[id].profile, s.pool.sessions[id].sink), v);
    SameKnown(s, s', v, sink);
    if v in s.pool.workerSessions {
      assert s.pool.workerSessions[v] != id;
      InflightMinus(s.pool.inflight, P.InflightOf(s.pool.inflight, id).Keys, id, s.pool.workerSessions[v]);
    }
  }

  lemma ClosedFree(s: Sys, s': Sys, w: WorkerId, id: SessionId, error: Option<string>, reusable: bool, now: int,
                   sink: nat)
    requires P.PoolInv(s.pool) && w in s.pool.workerSessions && s.pool.workerSessions[w] == id
    requires P.SessionClosed(s.pool, w, id, error, reusable, now).Some?
    requires s'.pool == P.SessionClosed(s.pool, w, id, error, reusable, now).value.pool
    ensures SliceOf(s', w, sink).owner.None? && (SliceOf(s', w, sink).idle ==> reusable)
  {
    hide P.RecordsInv, P.CountInv, P.InflightInv, P.OwnerInv;
    HelloIdle(s.pool.idle, P.Entry(w, s.pool.sessions[id].profile, s.pool.sessions[id].sink), w);
  }

  /** Releasing a worker, as far as the bookkeeping of sinks and ids goes. */
  ghost predicate Released(s: Sys, s': Sys, w: WorkerId) {
    && s'.conns == s.conns && s'.sinks == s.sinks && s'.unsent == s.unsent && s'.holders == s.holders
    && s'.usedSessions == s.usedSessions && s'.usedCommands == s.usedCommands
    && s.conns.Keys <= s'.pool.liveness.Keys && s'.pool.workerSessions == s.pool.workerSessions - {w}
    && s'.pool.sessions.Keys == s.pool.sessions.Keys
    && (forall i :: i in s.pool.sessions ==>
          s'.pool.sessions[i].workerId == s.pool.sessions[i].workerId
          && s'.pool.sessions[i].sink == s.pool.sessions[i].sink)
    && (forall rid :: rid in s'.pool.inflight ==>
          rid in s.pool.inflight && s'.pool.inflight[rid] == s.pool.inflight[rid])
    && (forall i :: 0 <= i < |s'.pool.idle| ==>
          || s'.pool.idle[i] in s.pool.idle
          || (w in s.conns && s'.pool.idle[i].workerId == w && s'.pool.idle[i].sink == s.conns[w].sink))
  }

  lemma ReleasedSinks(s: Sys, s': Sys, w: WorkerId)
    requires SinksInv(s) && Released(s, s', w)
    ensures SinksInv(s')
  {
  }

  lemma ReleasedHolders(s: Sys, s': Sys, w: WorkerId)
    requires HoldersInv(s) && Released(s, s', w)
    requires w in s.pool.workerSessions ==>
               var id := s.pool.workerSessions[w];
               !(id in s.unsent && Connected(s, s.unsent[id].0, s.unsent[id].1) && s.unsent[id].0 == w)
    ensures HoldersInv(s')
  {
  }

  lemma ReleasedBooks(s: Sys, s': Sys, w: WorkerId)
    requires BooksInv(s) && Released(s, s', w)
    requires w in s.pool.workerSessions ==>
               var id := s.pool.workerSessions[w];
               !(id in s.unsent && Connected(s, s.unsent[id].0, s.unsent[id].1) && s.unsent[id].0 == w)
    ensures BooksInv(s')
  {
    hide SinksInv, HoldersInv;
    ReleasedSinks(s, s', w);
    ReleasedHolders(s, s', w);
    assert InflightHome(s') by { hide UsedInv; }
    assert UsedInv(s') by { hide InflightHome; }
  }

  lemma ClosedBooks(s: Sys, s': Sys, w: WorkerId, id: SessionId, error: Option<string>, reusable: bool, now: int)
    requires P.PoolInv(s.pool) && BooksInv(s) && w in s.conns && w in s.pool.workerSessions
    requires s.pool.workerSessions[w] == id
    requires P.SessionClosed(s.pool, w, id, error, reusable, now).Some?
    requires s'.pool == P.SessionClosed(s.pool, w, id, error, reusable, now).value.pool
    requires s' == s.(pool := s'.pool, finalizers := s'.finalizers)
    requires !(id in s.unsent && Connected(s, s.unsent[id].0, s.unsent[id].1) && s.unsent[id].0 == w)
    ensures BooksInv(s')
  {
    hide P.PoolInv, HoldersInv, InflightHome, UsedInv;
    assert s.pool.sessions[id].sink == s.conns[w].sink;
    assert Released(s, s', w);
    ReleasedBooks(s, s', w);
  }

  lemma ClosedPreserves(s: Sys, w: WorkerId, now: int)
    requires SysInv(s) && w in s.conns && s.conns[w].up != [] && s.conns[w].up[0].SessionClosed?
    ensures SysInv(DoDeliver(s, w, now))
  {
    hide ConnInv, P.PoolInv, BooksInv, Known, P.SessionClosed;
    var c := s.conns[w];
    var id, error, reusable := c.up[0].sessionId, c.up[0].error, c.up[0].reusable;
    var s1, s' := Popped(s, w), DoDeliver(s, w, now);
    var slw := SliceOf(s, w, c.sink);
    UpFrame(slw, c);
    PoppedBooks(s, w);
    OwnedFacts(s, w, c.sink);
    if P.SessionClosed(s.pool, w, id, error, reusable, now).None? {
      ClosedNone(s, w, id, error, reusable, now);
      forall v | v in s'.conns ensures ConnInv(SliceOf(s', v, s'.conns[v].sink), s'.conns[v]) {
        if v == w {
          DeliverLateInv(slw, c);
        }
      }
    } else {
      P.ClosedInv(s.pool, w, id, error, reusable, now);
      ClosedBooks(s1, s', w, id, error, reusable, now);
      forall v | v in s'.conns ensures ConnInv(SliceOf(s', v, s'.conns[v].sink), s'.conns[v]) {
        if v == w {
          ClosedFree(s, s', w, id, error, reusable, now, c.sink);
          DeliverClosedInv(slw, SliceOf(s', v, c.sink), c);
        } else {
          ClosedKnown(s, s', w, id, error, reusable, now, v, s.conns[v].sink);
        }
      }
    }
  }

  lemma OwnedFacts(s: Sys, w: WorkerId, sink: nat)
    ensures var sl := SliceOf(s, w, sink);
            sl.owner.Some? ==>
              && w in s.pool.workerSessions && s.pool.workerSessions[w] == sl.owner.value
              && sl.present == (sl.owner.value in s.pool.sessions)
              && sl.unsent == (sl.owner.value in s.unsent && s.unsent[sl.owner.value].0 == w
                               && s.unsent[sl.owner.value].1 == sink)
  {
  }

  lemma ClosedNone(s: Sys, w: WorkerId, id: SessionId, error: Option<string>, reusable: bool, now: int)
    requires P.PoolInv(s.pool) && w in s.pool.workerSessions && s.pool.workerSessions[w] == id
    requires P.SessionClosed(s.pool, w, id, error, reusable, now).None?
    ensures id !in s.pool.sessions
  {
  }

  // -------------------------------------------------------------- worker drops

  lemma TakenInflight(s: Sys, w: WorkerId, v: WorkerId)
    requires InflightHome(s) && v in s.pool.workerSessions && v != w
    ensures P.InflightOf(s.pool.inflight - P.OnWorker(s.pool.inflight, w), s.pool.workerSessions[v])
            == P.InflightOf(s.pool.inflight, s.pool.workerSessions[v])
  {
  }

  lemma TakePreserves(s: Sys, w: WorkerId, oom: bool)
    requires SysInv(s)
    ensures SysInv(DoTake(s, w, oom))
  {
    hide ConnInv, P.PoolInv, SinksInv, HoldersInv, UsedInv, InflightHome, Known, P.InflightOf, P.OnWorker;
    var s1, s' := s.(conns := s.conns - {w}), DoTake(s, w, oom);
    CutPreserves(s, s1, w);
    P.TakeInv(s.pool, w);
    LocalBooks(s1, s');
    forall v | v in s'.conns ensures ConnInv(SliceOf(s', v, s'.conns[v].sink), s'.conns[v]) {
      SameKnown(s, s', v, s.conns[v].sink);
      if v in s.pool.workerSessions {
        TakenInflight(s, w, v);
      }
    }
  }

  lemma RetainKnown(p: P.Pool, w: WorkerId, v: WorkerId)
    requires P.PoolInv(p) && v != w
    ensures Idle(P.Retain(p.idle, w), v) == Idle(p.idle, v)
    ensures forall i :: 0 <= i < |P.Retain(p.idle, w)| ==> P.Retain(p.idle, w)[i] in p.idle
  {
    hide P.OwnerInv, P.RecordsInv, P.CountInv, P.InflightInv;
    P.RetainIdle(p.idle, w, p.liveness, p.workerSessions);
    var idle' := P.Retain(p.idle, w);
    if Idle(p.idle, v) {
      var i :| 0 <= i < |p.idle| && p.idle[i].workerId == v;
      assert p.idle[i] in idle';
    }
    if Idle(idle', v) {
      var i :| 0 <= i < |idle'| && idle'[i].workerId == v;
      assert idle'[i] in p.idle;
    }
  }

  lemma DropRestShape(p: P.Pool, w: WorkerId, now: int)
    requires P.PoolInv(p)
    ensures var p' := P.DropRest(p, w, now).0;
            && p'.idle == P.Retain(p.idle, w) && p'.inflight == p.inflight
            && p'.liveness == p.liveness - {w} && p'.workerSessions == p.workerSessions - {w}
            && p'.sessions.Keys == p.sessions.Keys
            && (forall i :: i in p.sessions ==>
                  && p'.sessions[i].workerId == p.sessions[i].workerId && p'.sessions[i].sink == p.sessions[i].sink
                  && (!(w in p.workerSessions && p.workerSessions[w] == i) ==> p'.sessions[i] == p.sessions[i]))
            && (forall v :: v in p.workerSessions && w in p.workerSessions && v != w ==>
                  p.workerSessions[v] != p.workerSessions[w])
  {
    hide P.IdleInv, P.RecordsInv, P.CountInv, P.InflightInv, P.Retain;
    var id := if w in p.workerSessions then p.workerSessions[w] else SessionId("");
    var p' := P.DropRest(p, w, now).0;
    assert p'.sessions == p.sessions
           || (w in p.workerSessions && id in p.sessions
               && p'.sessions == p.sessions[id := P.Ended(p.sessions[id], true, now)]);
  }

  lemma ForgetDroppedPreserves(s: Sys, w: WorkerId, now: int)
    requires SysInv(s)
    ensures SysInv(DoForget(s, w, now))
  {
    hide ConnInv, P.PoolInv, HoldersInv, UsedInv, InflightHome, Known, P.DropRest, Idle;
    if w in s.dropping {
      var s1, s' := s.(conns := s.conns - {w}), DoForget(s, w, now);
      CutPreserves(s, s1, w);
      P.RestInv(s.pool, w, now);
      DropRestShape(s.pool, w, now);
      RetainKnown(s.pool, w, WorkerId(w.text + "x"));
      ReleasedBooks(s1, s', w);
      forall v | v in s'.conns ensures ConnInv(SliceOf(s', v, s'.conns[v].sink), s'.conns[v]) {
        RetainKnown(s.pool, w, v);
        SameKnown(s, s', v, s.conns[v].sink);
      }
    }
  }

  // ------------------------------------------------------------- every step

  lemma ServerPreserves(s: Sys, l: Label)
    requires SysInv(s)
    requires l.Hello? || l.CreateSession? || l.SendOpen? || l.OpenTimeout? || l.BeginSubmit? || l.SpoolSetupFails?
             || l.RegisterCommand? || l.SendRun? || l.BeginClose? || l.SendClose? || l.SendCancel?
    ensures SysInv(Next(s, l))
  {
    hide SysInv, DoHello, DoCreate, DoSendOpen, DoBeginSubmit, DoAbandon, DoRegister, DoSendRun, DoBeginClose,
         DoSendClose, Push;
    match l
    case Hello(w, profile) => HelloPreserves(s, w, profile);
    case CreateSession(id, profile, inputs, now) => CreatePreserves(s, id, profile, inputs, now);
    case SendOpen(id, ok) => SendOpenPreserves(s, id, ok);
    case OpenTimeout(id) =>
      if id in s.pool.sessions {
        PushPreserves(s, s.pool.sessions[id].workerId, s.pool.sessions[id].sink, SessionClose(id));
      }
    case BeginSubmit(id, rid, command, mode) => BeginSubmitPreserves(s, id, rid, command, mode);
    case SpoolSetupFails(id) => BeginSubmitPreserves(s, id, ExecId(""), "", Stateful);
    case RegisterCommand(id, now) => RegisterPreserves(s, id, now);
    case SendRun(id, ok) => SendRunPreserves(s, id, ok);
    case BeginClose(id, gate, waiter) => BeginClosePreserves(s, id, gate, waiter);
    case SendClose(id, ok) => SendClosePreserves(s, id, ok);
    case SendCancel(rid) =>
      if rid in s.pool.inflight {
        PushPreserves(s, s.pool.inflight[rid].workerId, s.pool.inflight[rid].sink, Cancel(rid));
      }
  }

  lemma StatusPreserves(s: Sys, id: SessionId, now: int)
    requires SysInv(s)
    ensures SysInv(DoReply(s, id, now)) && SysInv(s.(pool := P.Touch(s.pool, id, now)))
  {
    hide ConnInv, P.PoolInv, BooksInv, LinksInv;
    P.TouchInv(s.pool, id, now);
    QuietPreserves(s, DoReply(s, id, now));
    QuietPreserves(s, s.(pool := P.Touch(s.pool, id, now)));
  }

  lemma AttachPreserves(s: Sys, id: SessionId, terminal: nat, now: int)
    requires SysInv(s)
    ensures SysInv(DoAttach(s, id, terminal, now))
  {
    hide ConnInv, P.PoolInv, BooksInv, LinksInv;
    P.AttachInv(s.pool, id, terminal, now);
    QuietPreserves(s, DoAttach(s, id, terminal, now));
  }

  lemma DetachPreserves(s: Sys, id: SessionId, terminal: nat, now: int)
    requires SysInv(s)
    ensures SysInv(s.(pool := P.Detach(s.pool, id, terminal, now)))
  {
    hide ConnInv, P.PoolInv, BooksInv, LinksInv;
    P.AttachInv(s.pool, id, terminal, now);
    QuietPreserves(s, s.(pool := P.Detach(s.pool, id, terminal, now)));
  }

  lemma CancelPreserves(s: Sys, rid: ExecId)
    requires SysInv(s)
    ensures SysInv(s.(pool := P.CancelRequest(s.pool, rid)))
    ensures SysInv(s.(pool := P.SpoolFailed(s.pool, rid)))
  {
    hide SysInv;
    HandlesPreserve(s, s.(pool := P.CancelRequest(s.pool, rid)));
    HandlesPreserve(s, s.(pool := P.SpoolFailed(s.pool, rid)));
  }

  lemma FinalizeShape(p: P.Pool, rid: ExecId, verdict: P.Verdict, now: int)
    ensures P.Finalize(p, rid, verdict, now) == p.(handles := P.Finalize(p, rid, verdict, now).handles)
  {
  }

  lemma SettlePreserves(s: Sys, rid: ExecId, verdict: P.Verdict, now: int)
    requires SysInv(s)
    ensures SysInv(DoSettle(s, rid, verdict, now))
  {
    hide SysInv, P.Finalize;
    FinalizeShape(s.pool, rid, verdict, now);
    SettledPreserves(s, P.Finalize(s.pool, rid, verdict, now), s.finalizers - multiset{(rid, verdict)});
  }

  lemma SettledPreserves(s: Sys, pool: P.Pool, finalizers: multiset<(ExecId, P.Verdict)>)
    requires SysInv(s) && pool == s.pool.(handles := pool.handles)
    ensures SysInv(s.(pool := pool, finalizers := finalizers))
  {
    hide SysInv;
    HandlesPreserve(s, s.(pool := pool, finalizers := finalizers));
  }

  lemma PurgePreserves(s: Sys, rid: ExecId)
    requires SysInv(s)
    ensures SysInv(DoPurge(s, rid))
  {
    hide SysInv;
    HandlesPreserve(s, DoPurge(s, rid));
  }

  lemma DeliverPreserves(s: Sys, w: WorkerId, now: int)
    requires SysInv(s)
    ensures SysInv(DoDeliver(s, w, now))
  {
    hide ConnInv, P.PoolInv, BooksInv;
    if w in s.conns && s.conns[w].up != [] {
      UpFrame(SliceOf(s, w, s.conns[w].sink), s.conns[w]);
      hide SysInv;
      if s.conns[w].up[0].SessionReady? {
        ReadyPreserves(s, w, now);
      } else if s.conns[w].up[0].ResultOf? {
        ResultPreserves(s, w, now);
      } else {
        ClosedPreserves(s, w, now);
      }
    }
  }

  /** Every step of every operation, at the server or at a worker, keeps the invariant. */
  lemma NextPreserves(s: Sys, l: Label)
    requires SysInv(s)
    ensures SysInv(Next(s, l))
  {
    hide SysInv;
    match l
    case Deliver(w, now) => DeliverPreserves(s, w, now);
    case ForgetSessions(age) => ForgetSessionsPreserves(s, age);
    case TakeDropped(w, oom) => TakePreserves(s, w, oom);
    case ForgetDropped(w, now) => ForgetDroppedPreserves(s, w, now);
    case ReceiveFrame(w, spawnError, home) => ReceivePreserves(s, w, spawnError, home);
    case Work(w, e) => WorkPreserves(s, w, e);
    case SendReport(w, resetFailed, exiting, ok) => ReportPreserves(s, w, resetFailed, exiting, ok);
    case CrashWorker(w) => ReportPreserves(s, w, false, false, false);
    case ReplyCreated(id, now) => StatusPreserves(s, id, now);
    case Status(id, now) => StatusPreserves(s, id, now);
    case AttachTerminal(id, terminal, now) => AttachPreserves(s, id, terminal, now);
    case DetachTerminal(id, terminal, now) => DetachPreserves(s, id, terminal, now);
    case CancelCommand(rid) => CancelPreserves(s, rid);
    case SpoolError(rid) => CancelPreserves(s, rid);
    case SettleHandle(rid, verdict, now) => SettlePreserves(s, rid, verdict, now);
    case PurgeHandle(rid) => PurgePreserves(s, rid);
    case _ => ServerPreserves(s, l);
  }

  lemma {:induction false} ExecPreserves(s: Sys, labels: seq<Label>)
    requires SysInv(s)
    ensures SysInv(Exec(s, labels))
    decreases |labels|
  {
    hide SysInv, Next;
    if labels != [] {
      NextPreserves(s, labels[0]);
      ExecPreserves(Next(s, labels[0]), labels[1..]);
    }
  }

  lemma Reachable(labels: seq<Label>)
    ensures SysInv(Exec(INIT, labels))
  {
    assert SysInv(INIT);
    ExecPreserves(INIT, labels);
  }
}
