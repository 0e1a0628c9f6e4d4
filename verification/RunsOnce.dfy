/** No worker accepts a command twice. */
module RunsOnce {
  import opened Wrappers
  import opened Protocol
  import S = Scheduler
  import P = ServerPool
  import opened Link
  import opened System
  import opened Composition
  import G = Guarantees
  import O = Outcomes
  import R = SessionRuns

  ghost predicate SameNames(a: seq<S.Ticket>, b: seq<S.Ticket>) {
    |a| == |b| && forall t :: 0 <= t < |a| ==> a[t].execute.requestId == b[t].execute.requestId
  }

  lemma {:induction false} AdmitLength(s: S.Sched, setup: S.Setup)
    ensures |S.Admit(s, setup).0.book| == |s.book|
    decreases |s.queued|
  {
    if s.ended.None? && s.stateful.None? && |s.running| < S.LIMIT && s.queued != [] && s.queued[0].mode.Parallel? {
      AdmitLength(S.Launch(s), setup);
    }
  }

  lemma StepNames(s: S.Sched, e: S.Event)
    requires S.Inv(s)
    ensures var book' := S.Step(s, e).0.book;
            || SameNames(s.book, book')
            || (e.RunFrame? && book' == s.book + [S.Ticket(e.execute, e.mode, S.Waiting)])
  {
    hide S.Inv, S.Admit;
    if e.Admission? && s.ended.None? {
      AdmitLength(s, e.setup);
      AdmitGrows(s, e);
    }
  }

  lemma AdmitGrows(s: S.Sched, e: S.Event)
    requires S.Inv(s) && e.Admission?
    ensures S.BookGrows(s.book, S.Step(s, e).0.book)
  {
    S.StepHistory(s, e);
  }

  /** The book names no command twice, and none that is still to come. */
  ghost predicate Once(book: seq<S.Ticket>, coming: multiset<ExecId>, used: set<ExecId>) {
    && (forall t, u :: 0 <= t < u < |book| ==> book[t].execute.requestId != book[u].execute.requestId)
    && (forall t :: 0 <= t < |book| ==> book[t].execute.requestId !in coming && book[t].execute.requestId in used)
  }

  lemma OnceNames(book: seq<S.Ticket>, book': seq<S.Ticket>, coming: multiset<ExecId>, coming': multiset<ExecId>,
                  used: set<ExecId>, used': set<ExecId>)
    requires Once(book, coming, used) && SameNames(book, book') && used <= used'
    requires forall rid :: rid in coming' ==> rid in coming || rid !in used
    ensures Once(book', coming', used')
  {
  }

  /** The commands about to be written, or on the wire, for the session a worker serves. */
  function Coming(s: Sys, w: WorkerId): multiset<ExecId>
    requires w in s.conns && s.conns[w].worker.Serving?
  {
    G.Unwritten(s, s.conns[w].worker.id) + Carried(s.conns[w].down, s.conns[w].worker.id)
  }

  ghost predicate WorkerOnce(s: Sys, w: WorkerId) {
    w in s.conns && s.conns[w].worker.Serving? ==> Once(s.conns[w].worker.sched.book, Coming(s, w), s.usedCommands)
  }

  ghost predicate OnceInv(s: Sys) {
    forall w :: w in s.conns ==> WorkerOnce(s, w)
  }

  lemma SameWorker(s: Sys, s': Sys, w: WorkerId)
    requires w in s.conns ==> WorkerOnce(s, w)
    requires s.usedCommands <= s'.usedCommands
    requires w in s'.conns && s'.conns[w].worker.Serving? ==>
               && w in s.conns && s'.conns[w].worker == s.conns[w].worker
               && (forall rid :: rid in Coming(s', w) ==> rid in Coming(s, w) || rid !in s.usedCommands)
    ensures WorkerOnce(s', w)
  {
    if w in s'.conns && s'.conns[w].worker.Serving? {
      OnceNames(s.conns[w].worker.sched.book, s'.conns[w].worker.sched.book, Coming(s, w), Coming(s', w),
                s.usedCommands, s'.usedCommands);
    }
  }

  // ------------------------------------------------------------- worker steps

  /** Only one worker's connection changed, and not what is to come for it. */
  lemma OneWorker(s: Sys, w: WorkerId, c: Conn)
    requires OnceInv(s) && w in s.conns && WorkerOnce(SetConn(s, w, c), w)
    ensures OnceInv(SetConn(s, w, c))
  {
    hide Once;
    var s' := SetConn(s, w, c);
    forall v | v in s'.conns ensures WorkerOnce(s', v) {
      if v != w {
        assert WorkerOnce(s, v);
        assert s'.conns[v] == s.conns[v];
        assert v in s'.conns && s'.conns[v].worker.Serving? ==> Coming(s', v) == Coming(s, v);
      }
    }
  }

  lemma WorkOnce(s: Sys, w: WorkerId, e: S.Event)
    requires SysInv(s) && OnceInv(s)
    ensures OnceInv(DoWork(s, w, e))
  {
    hide SysInv, S.Legal, S.Step, S.Inv, Once, OnceInv;
    if DoWork(s, w, e) != s {
      var c := s.conns[w];
      var c' := Worked(c, c.worker.id, c.worker.sched, e);
      var s' := SetConn(s, w, c');
      assert WorkerOnce(s, w) by { OnceAt(s, w); }
      if c'.worker.Serving? {
        InvOf(s, w);
        StepNames(c.worker.sched, e);
        OnceNames(c.worker.sched.book, c'.worker.sched.book, Coming(s, w), Coming(s', w), s.usedCommands,
                  s.usedCommands);
      }
      OneWorker(s, w, c');
    }
  }

  lemma OnceAt(s: Sys, w: WorkerId)
    requires OnceInv(s) && w in s.conns
    ensures WorkerOnce(s, w)
  {
  }

  /** A worker that reads a frame for its session. */
  lemma EventOnce(s: Sys, w: WorkerId, f: Frame, e: S.Event, sched': S.Sched, coming': multiset<ExecId>)
    requires SysInv(s) && WorkerOnce(s, w) && w in s.conns && s.conns[w].worker.Serving? && s.conns[w].down != []
    requires f == s.conns[w].down[0] && EventOf(f, s.conns[w].worker.id) == Some(e)
    requires sched' == S.Step(s.conns[w].worker.sched, e).0
    requires coming' == G.Unwritten(s, s.conns[w].worker.id) + Carried(s.conns[w].down[1..], s.conns[w].worker.id)
    ensures Once(sched'.book, coming', s.usedCommands)
  {
    hide SysInv, S.Step, S.Inv, Once, Carried, G.Unwritten;
    var c := s.conns[w];
    var id, sched := c.worker.id, c.worker.sched;
    PopDown(c.down, id);
    InvOf(s, w);
    StepNames(sched, e);
    if SameNames(sched.book, sched'.book) {
      OnceNames(sched.book, sched'.book, Coming(s, w), coming', s.usedCommands, s.usedCommands);
    } else {
      HeadUnique(s, w, f.execute.requestId);
      OnceMore(sched.book, sched'.book, Coming(s, w), coming', s.usedCommands);
    }
  }

  /** A worker that reads the next frame of its session. */
  lemma ServeOnce(s: Sys, w: WorkerId)
    requires SysInv(s) && WorkerOnce(s, w) && w in s.conns && s.conns[w].worker.Serving? && s.conns[w].down != []
    ensures WorkerOnce(DoReceive(s, w, None, None), w)
  {
    hide S.Step, Once, SysInv, Carried;
    var c := s.conns[w];
    var id, sched, f := c.worker.id, c.worker.sched, c.down[0];
    var s' := DoReceive(s, w, None, None);
    var e := EventOf(f, id);
    if e.Some? {
      var sched' := S.Step(sched, e.value).0;
      EventOnce(s, w, f, e.value, sched', G.Unwritten(s, id) + Carried(c.down[1..], id));
    } else {
      PopDown(c.down, id);
      OnceNames(sched.book, sched.book, Coming(s, w), Coming(s', w), s.usedCommands, s.usedCommands);
    }
  }

  lemma InvOf(s: Sys, w: WorkerId)
    requires SysInv(s) && w in s.conns && s.conns[w].worker.Serving?
    ensures S.Inv(s.conns[w].worker.sched)
  {
    hide S.Inv;
    G.ServingFacts(s, w);
  }

  lemma OnceMore(book: seq<S.Ticket>, book': seq<S.Ticket>, coming: multiset<ExecId>, coming': multiset<ExecId>,
                 used: set<ExecId>)
    requires Once(book, coming, used) && |book'| == |book| + 1 && book'[..|book|] == book
    requires book'[|book|].execute.requestId in used && book'[|book|].execute.requestId !in coming'
    requires coming == coming' + multiset{book'[|book|].execute.requestId}
    ensures Once(book', coming', used)
  {
    assert forall t :: 0 <= t < |book| ==> book'[t] == book'[..|book|][t];
  }

  /** The command at the head of the wire is nowhere else on it. */
  lemma HeadUnique(s: Sys, w: WorkerId, rid: ExecId)
    requires SysInv(s) && w in s.conns && s.conns[w].worker.Serving? && s.conns[w].down != []
    requires var c := s.conns[w];
             c.down[0].SessionRun? && c.down[0].sessionId == c.worker.id && c.down[0].execute.requestId == rid
    ensures var c := s.conns[w];
            rid !in G.Unwritten(s, c.worker.id) + Carried(c.down[1..], c.worker.id) && rid in s.usedCommands
  {
    hide ConnInv, P.PoolInv, LinksInv, S.Inv, S.Held, Answered, ModesOk;
    var c := s.conns[w];
    var id := c.worker.id;
    G.ServingFacts(s, w);
    var sl := SliceOf(s, w, c.sink);
    var rest := G.Unwritten(s, id) + Carried(c.down[1..], id) + HeldBy(c.worker) + Answered(c.up);
    assert Carried(c.down, id) == multiset{rid} + Carried(c.down[1..], id);
    assert Whereabouts(sl, id, c) == multiset{rid} + rest;
    Distinct(sl.inflight.Keys, rest, rid);
    InSlice(s, w, c.sink, rid);
  }

  lemma ReceiveOnce(s: Sys, w: WorkerId, spawnError: Option<string>, home: Option<string>)
    requires SysInv(s) && OnceInv(s)
    ensures OnceInv(DoReceive(s, w, spawnError, home))
  {
    hide SysInv, Once, S.Step, S.Start, Carried, OnceInv;
    if w in s.conns && s.conns[w].down != [] {
      OnceAt(s, w);
      if s.conns[w].worker.Serving? {
        ServeOnce(s, w);
        assert Receive(s.conns[w], spawnError, home) == Receive(s.conns[w], None, None);
      } else {
        StartOnce(s, w, spawnError, home);
      }
      OneWorker(s, w, Receive(s.conns[w], spawnError, home));
    }
  }

  lemma StartOnce(s: Sys, w: WorkerId, spawnError: Option<string>, home: Option<string>)
    requires w in s.conns && s.conns[w].down != [] && !s.conns[w].worker.Serving?
    ensures WorkerOnce(SetConn(s, w, Receive(s.conns[w], spawnError, home)), w)
  {
    hide Once, S.Start, Carried;
    var s' := SetConn(s, w, Receive(s.conns[w], spawnError, home));
    if s'.conns[w].worker.Serving? {
      StartEmpty(S.Shell(s.conns[w].down[0].workingDir, s.conns[w].down[0].env), home, s.conns[w].down[0].dropTo,
                 Coming(s', w), s'.usedCommands);
    }
  }

  lemma StartEmpty(shell: S.Shell, home: Option<string>, dropTo: Option<DropTo>, coming: multiset<ExecId>,
                   used: set<ExecId>)
    ensures Once(S.Start(shell, home, dropTo).book, coming, used)
  {
  }

  /** A worker that leaves its loop, or has left it, is out of the account. */
  lemma AwayOnce(s: Sys, w: WorkerId, c: Conn)
    requires OnceInv(s) && w in s.conns && (c == s.conns[w] || !c.worker.Serving?)
    ensures OnceInv(SetConn(s, w, c))
  {
    hide OnceInv, Once;
    OnceAt(s, w);
    if c == s.conns[w] {
      assert SetConn(s, w, c).conns == s.conns;
    }
    OneWorker(s, w, c);
  }

  lemma LeaveOnce(s: Sys, w: WorkerId, resetFailed: bool, exiting: bool, ok: bool)
    requires OnceInv(s)
    ensures OnceInv(DoReport(s, w, resetFailed, exiting, ok)) && OnceInv(DoCrash(s, w))
  {
    hide OnceInv;
    if w in s.conns {
      AwayOnce(s, w, Report(s.conns[w], resetFailed, exiting, ok));
      AwayOnce(s, w, Crash(s.conns[w]));
    }
  }

  // ------------------------------------------------------------- server steps

  /** Writing a frame that is not a command of the session, or is the one registered. */
  lemma PushComing(s: Sys, s': Sys, w: WorkerId, f: Frame)
    requires w in s.conns && s.conns[w].worker.Serving?
    requires w in s'.conns && s'.conns[w].worker == s.conns[w].worker
    requires s'.conns[w].down == s.conns[w].down || s'.conns[w].down == s.conns[w].down + [f]
    requires var id := s.conns[w].worker.id;
             && (forall rid :: rid in G.Unwritten(s', id) ==> rid in G.Unwritten(s, id) || rid !in s.usedCommands)
             && (f.SessionRun? && f.sessionId == id ==> f.execute.requestId in G.Unwritten(s, id))
    ensures forall rid :: rid in Coming(s', w) ==> rid in Coming(s, w) || rid !in s.usedCommands
  {
    PushFrame(s.conns[w].down, f, s.conns[w].worker.id);
  }

  /** Every worker keeps its state, and its channel grows by at most this frame. */
  ghost predicate Moves(conns: map<WorkerId, Conn>, conns': map<WorkerId, Conn>, f: Frame) {
    forall w :: w in conns' && conns'[w].worker.Serving? ==>
      && w in conns && conns'[w].worker == conns[w].worker
      && (conns'[w].down == conns[w].down || conns'[w].down == conns[w].down + [f])
  }

  /** A registered command that was not waiting to be written before is a new one. */
  ghost predicate Announces(holders: map<SessionId, Holder>, holders': map<SessionId, Holder>, used: set<ExecId>) {
    forall id :: id in holders' && holders'[id].Registered? ==>
      (id in holders && holders'[id] == holders[id]) || holders'[id].execute.requestId !in used
  }

  /** A step at the server. */
  ghost predicate Writes(s: Sys, s': Sys, f: Frame) {
    && s.usedCommands <= s'.usedCommands
    && Moves(s.conns, s'.conns, f)
    && Announces(s.holders, s'.holders, s.usedCommands)
    && (f.SessionRun? ==> f.execute.requestId in G.Unwritten(s, f.sessionId))
  }

  lemma WritesOnce(s: Sys, s': Sys, f: Frame)
    requires OnceInv(s) && Writes(s, s', f)
    ensures OnceInv(s')
  {
    hide Once, Carried;
    forall w | w in s'.conns ensures WorkerOnce(s', w) {
      assert w in s.conns ==> WorkerOnce(s, w);
      if s'.conns[w].worker.Serving? {
        PushComing(s, s', w, f);
        SameWorker(s, s', w);
      }
    }
  }

  function Quiet(): Frame { Cancel(ExecId("")) }

  function FrameOf(s: Sys, l: Label): Frame {
    if l.SendOpen? && l.id in s.unsent then s.unsent[l.id].2
    else if l.SendRun? && l.id in s.holders && s.holders[l.id].Registered?
    then SessionRun(l.id, s.holders[l.id].execute, s.holders[l.id].mode)
    else if l.SendClose? || l.OpenTimeout? then SessionClose(l.id)
    else if l.SendCancel? then Cancel(l.rid)
    else Quiet()
  }

  lemma WriteMoves(s: Sys, w: WorkerId, sink: nat, f: Frame, ok: bool)
    ensures var s' := Write(s, w, sink, f, ok);
            Moves(s.conns, s'.conns, f) && s' == s.(conns := s'.conns)
  {
  }

  lemma SendWrites(s: Sys, l: Label)
    requires l.SendOpen? || l.SendRun? || l.SendClose?
    requires l.SendOpen? && l.id in s.unsent ==> s.unsent[l.id].2.SessionOpen?
    ensures Writes(s, Next(s, l), FrameOf(s, l))
  {
    hide Write, Moves;
    var f := FrameOf(s, l);
    SameMoves(s.conns, f);
    if l.SendOpen? {
      if l.id in s.unsent {
        WriteMoves(s.(unsent := s.unsent - {l.id}), s.unsent[l.id].0, s.unsent[l.id].1, f, l.ok);
      }
    } else if l.id in s.holders && !s.holders[l.id].Submitting? {
      var h := s.holders[l.id];
      var sent := if l.SendRun? then RunSent else CloseSent;
      WriteMoves(s.(holders := s.holders - {l.id}, log := s.log[l.id := LogOf(s, l.id) + [sent]]), h.worker, h.sink,
                 f, l.ok);
    }
  }

  lemma SameMoves(conns: map<WorkerId, Conn>, f: Frame)
    ensures Moves(conns, conns, f)
  {
  }

  lemma ControlWrites(s: Sys, l: Label)
    requires l.OpenTimeout? || l.SendCancel?
    ensures Writes(s, Next(s, l), FrameOf(s, l))
  {
    hide Push, Moves;
    SameMoves(s.conns, FrameOf(s, l));
    if l.OpenTimeout? && l.id in s.pool.sessions {
      PushMoves(s, s.pool.sessions[l.id].workerId, s.pool.sessions[l.id].sink, FrameOf(s, l));
    } else if l.SendCancel? && l.rid in s.pool.inflight {
      PushMoves(s, s.pool.inflight[l.rid].workerId, s.pool.inflight[l.rid].sink, FrameOf(s, l));
    }
  }

  lemma LockWrites(s: Sys, l: Label)
    requires l.BeginSubmit? || l.SpoolSetupFails?
    ensures Writes(s, Next(s, l), FrameOf(s, l))
  {
    hide Moves;
    SameMoves(s.conns, FrameOf(s, l));
  }

  lemma PushMoves(s: Sys, w: WorkerId, sink: nat, f: Frame)
    ensures var s' := Push(s, w, sink, f);
            Moves(s.conns, s'.conns, f) && s' == s.(conns := s'.conns)
  {
  }

  lemma RegisterWrites(s: Sys, l: Label)
    requires l.RegisterCommand?
    ensures Writes(s, Next(s, l), FrameOf(s, l))
  {
    hide Next, P.Submit, Moves;
    NextAtPool(s, l);
    SameMoves(s.conns, FrameOf(s, l));
  }

  lemma CloseWrites(s: Sys, l: Label)
    requires l.BeginClose?
    ensures Writes(s, Next(s, l), FrameOf(s, l))
  {
    hide Next, P.Close, Moves;
    NextAtPool(s, l);
    SameMoves(s.conns, FrameOf(s, l));
  }

  /** Steps that leave the lock holders alone, and the connections too or lose or gain one, or shorten an
      upward channel. */
  lemma PoolWrites(s: Sys, l: Label)
    requires l.Hello? || l.CreateSession? || l.ReplyCreated? || l.Status? || l.AttachTerminal? || l.DetachTerminal?
             || l.CancelCommand? || l.SettleHandle? || l.SpoolError? || l.PurgeHandle? || l.ForgetSessions?
             || l.TakeDropped? || l.ForgetDropped? || l.Deliver?
    ensures Writes(s, Next(s, l), FrameOf(s, l))
  {
    hide P.Create, P.Created, P.Touch, P.Attach, P.Detach, P.CancelRequest, P.Finalize, P.SpoolFailed, P.Purge,
         P.Forget, P.Register,
         P.DropTake, P.DropRest, Tasks, P.SessionReady, P.CompleteRequest, P.SessionClosed, Announces;
    R.LogSame(s, l);
    SameHolders(s.holders, s.usedCommands);
    hide Moves;
    if l.Hello? || l.TakeDropped? || l.ForgetDropped? || l.Deliver? {
      ConnMoves(s, l);
    } else {
      SameMoves(s.conns, FrameOf(s, l));
    }
  }

  lemma SameHolders(holders: map<SessionId, Holder>, used: set<ExecId>)
    ensures Announces(holders, holders, used)
  {
  }

  lemma ConnMoves(s: Sys, l: Label)
    requires l.Hello? || l.TakeDropped? || l.ForgetDropped? || l.Deliver?
    ensures Moves(s.conns, Next(s, l).conns, FrameOf(s, l)) && Next(s, l).usedCommands == s.usedCommands
  {
    hide Next, Moves, DoDeliver, DoHello, DoTake, DoForget;
    NextAtPool(s, l);
    match l
    case Deliver(w, now) => DeliverMoves(s, w, now);
    case Hello(w, profile) => HelloMoves(s, w, profile);
    case TakeDropped(w, oom) => DropMoves(s, w, oom, 0);
    case ForgetDropped(w, now) => DropMoves(s, w, false, now);
  }

  lemma DeliverMoves(s: Sys, w: WorkerId, now: int)
    ensures Moves(s.conns, DoDeliver(s, w, now).conns, Quiet()) && DoDeliver(s, w, now).usedCommands == s.usedCommands
  {
    hide P.SessionReady, P.CompleteRequest, P.SessionClosed, Tasks;
    if w in s.conns && s.conns[w].up != [] {
      assert DoDeliver(s, w, now).conns == s.conns[w := s.conns[w].(up := s.conns[w].up[1..])];
    }
  }

  lemma HelloMoves(s: Sys, w: WorkerId, profile: string)
    ensures Moves(s.conns, DoHello(s, w, profile).conns, Quiet())
    ensures DoHello(s, w, profile).usedCommands == s.usedCommands
  {
    hide P.Register;
  }

  lemma DropMoves(s: Sys, w: WorkerId, oom: bool, now: int)
    ensures Moves(s.conns, DoTake(s, w, oom).conns, Quiet()) && DoTake(s, w, oom).usedCommands == s.usedCommands
    ensures Moves(s.conns, DoForget(s, w, now).conns, Quiet()) && DoForget(s, w, now).usedCommands == s.usedCommands
  {
    hide P.DropTake, P.DropRest, Tasks;
  }

  lemma ServerWrites(s: Sys, l: Label)
    requires !AtWorker(l)
    requires l.SendOpen? && l.id in s.unsent ==> s.unsent[l.id].2.SessionOpen?
    ensures Writes(s, Next(s, l), FrameOf(s, l))
  {
    hide Next, Writes, FrameOf;
    match l
    case SendRun(_, _) => SendWrites(s, l);
    case SendOpen(_, _) => SendWrites(s, l);
    case SendClose(_, _) => SendWrites(s, l);
    case RegisterCommand(_, _) => RegisterWrites(s, l);
    case BeginClose(_, _, _) => CloseWrites(s, l);
    case OpenTimeout(_) => ControlWrites(s, l);
    case SendCancel(_) => ControlWrites(s, l);
    case BeginSubmit(_, _, _, _) => LockWrites(s, l);
    case SpoolSetupFails(_) => LockWrites(s, l);
    case _ => PoolWrites(s, l);
  }

  lemma StepOnce(s: Sys, l: Label)
    requires SysInv(s) && OnceInv(s)
    ensures OnceInv(Next(s, l))
  {
    hide Next, OnceInv, SysInv, Writes, FrameOf, DoReceive, DoWork, DoReport, DoCrash;
    NextOnWire(s, l);
    match l
    case ReceiveFrame(w, spawnError, home) => ReceiveOnce(s, w, spawnError, home);
    case Work(w, e) => WorkOnce(s, w, e);
    case SendReport(w, resetFailed, exiting, ok) => LeaveOnce(s, w, resetFailed, exiting, ok);
    case CrashWorker(w) => LeaveOnce(s, w, false, false, false);
    case _ =>
      OpensUnsent(s, l);
      ServerWrites(s, l);
      WritesOnce(s, Next(s, l), FrameOf(s, l));
  }

  lemma OpensUnsent(s: Sys, l: Label)
    requires SysInv(s)
    ensures l.SendOpen? && l.id in s.unsent ==> s.unsent[l.id].2.SessionOpen?
  {
    hide P.PoolInv, LinksInv, SinksInv, UsedInv, InflightHome;
  }

  lemma {:induction false} OnceRun(s: Sys, labels: seq<Label>)
    requires SysInv(s) && OnceInv(s)
    ensures OnceInv(Exec(s, labels))
    decreases |labels|
  {
    hide SysInv, OnceInv, Next;
    if labels != [] {
      StepOnce(s, labels[0]);
      NextPreserves(s, labels[0]);
      OnceRun(Next(s, labels[0]), labels[1..]);
    }
  }

  /** In no run does a worker accept a command twice, so it starts none twice; nor
      is one it has accepted still to be written or on the wire. */
  lemma AcceptedOnce(labels: seq<Label>, w: WorkerId)
    ensures var s := Exec(INIT, labels);
            w in s.conns && s.conns[w].worker.Serving? ==>
              var book := s.conns[w].worker.sched.book;
              && (forall t, u :: 0 <= t < u < |book| ==> book[t].execute.requestId != book[u].execute.requestId)
              && (forall t :: 0 <= t < |book| ==> book[t].execute.requestId !in Coming(s, w))
  {
    hide SysInv, Next, Coming;
    assert OnceInv(INIT);
    O.InitRun();
    OnceRun(INIT, labels);
    var s := Exec(INIT, labels);
    assert w in s.conns ==> WorkerOnce(s, w);
  }
}
