/** The one way a stateful command and a terminal come to share a session: the
    worker gives the command up, answers for it, and is still ending it while the
    server lets a terminal in. */
module StuckCommand {
  import opened Wrappers
  import opened Protocol
  import S = Scheduler
  import P = ServerPool
  import opened Link
  import opened System
  import opened Composition
  import G = Guarantees
  import D = Drops

  /** A worker is running its session's only stateful command, and has nothing to say. */
  ghost predicate RunsAlone(s: Sys, w: WorkerId, id: SessionId, rid: ExecId) {
    && w in s.conns && s.conns[w].worker.Serving? && s.conns[w].worker.id == id && s.conns[w].up == []
    && s.conns[w].worker.sched.ended.None? && s.conns[w].worker.sched.stateful == Some(rid)
    && id in s.pool.sessions && s.pool.sessions[id].state.Active? && s.pool.sessions[id].terminal.None?
    && s.pool.sessions[id].statefulCount == 1
  }

  function GiveUp(w: WorkerId, id: SessionId, rid: ExecId, terminal: nat, now: int): seq<Label> {
    [Work(w, S.JobAbort(rid)), Deliver(w, now), AttachTerminal(id, terminal, now)]
  }

  lemma Aborted(s: Sys, w: WorkerId, id: SessionId, rid: ExecId)
    requires RunsAlone(s, w, id, rid)
    ensures var s' := Next(s, Work(w, S.JobAbort(rid)));
            && s' == s.(conns := s'.conns) && w in s'.conns
            && s'.conns[w].up == [ResultOf(ResultFrame(rid, None, None, true, Some(S.STUCK)))]
            && LeftBy(s'.conns[w].worker).Some? && S.GivenUp(LeftBy(s'.conns[w].worker).value) == Some(rid)
  {
    var sched := s.conns[w].worker.sched;
    assert S.Legal(sched, S.JobAbort(rid));
    assert Next(s, Work(w, S.JobAbort(rid))) == DoWork(s, w, S.JobAbort(rid));
    assert [] + S.Step(sched, S.JobAbort(rid)).1 == S.Step(sched, S.JobAbort(rid)).1;
  }

  lemma Answered(s: Sys, w: WorkerId, id: SessionId, r: ResultFrame, now: int)
    requires w in s.conns && s.conns[w].up == [ResultOf(r)]
    requires r.requestId in s.pool.inflight && s.pool.inflight[r.requestId].sessionId == id
    requires s.pool.inflight[r.requestId].mode.Stateful?
    requires id in s.pool.sessions && s.pool.sessions[id].statefulCount == 1
    ensures var s' := Next(s, Deliver(w, now));
            && w in s'.conns && s'.conns[w].worker == s.conns[w].worker && id in s'.pool.sessions
            && s'.pool.sessions[id] == s.pool.sessions[id].(statefulCount := 0, lastActivityAt := now)
            && s'.pool.workerSessions == s.pool.workerSessions
  {
    hide Next;
    NextAtPool(s, Deliver(w, now));
  }

  lemma LetIn(s: Sys, id: SessionId, terminal: nat, now: int)
    requires id in s.pool.sessions && s.pool.sessions[id].state.Active? && s.pool.sessions[id].terminal.None?
    requires s.pool.sessions[id].statefulCount == 0
    ensures var s' := Next(s, AttachTerminal(id, terminal, now));
            && s'.conns == s.conns && s'.pool.workerSessions == s.pool.workerSessions && id in s'.pool.sessions
            && s'.pool.sessions[id].state.Active? && s'.pool.sessions[id].terminal == Some(terminal)
  {
    hide Next;
    PoolOnlyStep(s, AttachTerminal(id, terminal, now));
  }

  /** The server counts the running stateful command. */
  lemma Counted(s: Sys, w: WorkerId, id: SessionId, rid: ExecId)
    requires SysInv(s) && RunsAlone(s, w, id, rid)
    ensures rid in s.pool.inflight && s.pool.inflight[rid].sessionId == id && s.pool.inflight[rid].mode.Stateful?
    ensures w in s.pool.workerSessions && s.pool.workerSessions[w] == id
  {
    hide SysInv;
    G.ServingFacts(s, w);
    var sl := SliceOf(s, w, s.conns[w].sink);
    assert rid in sl.inflight && sl.inflight[rid].Stateful?;
    InSlice(s, w, s.conns[w].sink, rid);
    SliceMode(s, w, s.conns[w].sink, rid);
  }

  lemma SliceMode(s: Sys, w: WorkerId, sink: nat, rid: ExecId)
    requires rid in SliceOf(s, w, sink).inflight
    ensures rid in s.pool.inflight && s.pool.inflight[rid].mode == SliceOf(s, w, sink).inflight[rid]
    ensures w in s.pool.workerSessions && s.pool.inflight[rid].sessionId == s.pool.workerSessions[w]
  {
  }

  /** From any state in which a session runs its only stateful command: the worker
      gives it up, the server reads the answer, and a terminal is let in while the
      worker still holds the command. */
  lemma TerminalBesideStuck(labels: seq<Label>, w: WorkerId, id: SessionId, rid: ExecId, terminal: nat, now: int)
    requires RunsAlone(Exec(INIT, labels), w, id, rid)
    ensures var s := Exec(INIT, labels + GiveUp(w, id, rid, terminal, now));
            && id in s.pool.sessions && s.pool.sessions[id].state.Active?
            && s.pool.sessions[id].terminal == Some(terminal)
            && w in s.conns && w in s.pool.workerSessions && s.pool.workerSessions[w] == id
            && LeftBy(s.conns[w].worker).Some? && S.GivenUp(LeftBy(s.conns[w].worker).value) == Some(rid)
            && G.HoldsStateful(LeftBy(s.conns[w].worker).value)
  {
    hide Next, RunsAlone, SysInv, S.GivenUp;
    var s := Exec(INIT, labels);
    Reachable(labels);
    Counted(s, w, id, rid);
    Facts(s, w, id, rid);
    Aborted(s, w, id, rid);
    var s1 := Next(s, Work(w, S.JobAbort(rid)));
    Answered(s1, w, id, ResultFrame(rid, None, None, true, Some(S.STUCK)), now);
    var s2 := Next(s1, Deliver(w, now));
    LetIn(s2, id, terminal, now);
    ThreeSteps(labels, w, id, rid, terminal, now);
    G.MutualExclusion(labels + GiveUp(w, id, rid, terminal, now), id);
    Held(Exec(INIT, labels + GiveUp(w, id, rid, terminal, now)), w, id, rid);
  }

  lemma Facts(s: Sys, w: WorkerId, id: SessionId, rid: ExecId)
    requires RunsAlone(s, w, id, rid)
    ensures w in s.conns && id in s.pool.sessions && s.pool.sessions[id].state.Active?
    ensures s.pool.sessions[id].terminal.None?
    ensures s.pool.sessions[id].statefulCount == 1
  {
  }

  lemma Held(s: Sys, w: WorkerId, id: SessionId, rid: ExecId)
    requires G.NoStateful(s, id) && w in s.conns && w in s.pool.workerSessions && s.pool.workerSessions[w] == id
    requires LeftBy(s.conns[w].worker).Some? && S.GivenUp(LeftBy(s.conns[w].worker).value) == Some(rid)
    ensures G.HoldsStateful(LeftBy(s.conns[w].worker).value)
  {
    assert G.NoStatefulAt(s.conns[w], id);
  }

  lemma ThreeSteps(labels: seq<Label>, w: WorkerId, id: SessionId, rid: ExecId, terminal: nat, now: int)
    ensures Exec(INIT, labels + GiveUp(w, id, rid, terminal, now))
            == Next(Next(Next(Exec(INIT, labels), Work(w, S.JobAbort(rid))), Deliver(w, now)),
                    AttachTerminal(id, terminal, now))
  {
    hide Next, Exec;
    var s, steps := Exec(INIT, labels), GiveUp(w, id, rid, terminal, now);
    ExecConcat(INIT, labels, steps);
    D.Unroll(s, steps);
    D.Unroll(Next(s, steps[0]), steps[1..]);
    assert steps[1..][1..] == [steps[2]];
    LastOne(Next(Next(s, steps[0]), steps[1]), steps[2]);
  }

  // ------------------------------------------------- a run that leads to such a state

  const SUBMIT := Execute(D.C1, "true", "/", map[], None)

  const LOCKED := D.ACTIVE.(holders := map[D.S1 := Submitting(SUBMIT, Stateful, D.W1, 0)])

  const REGISTERED := LOCKED.(
    pool := D.ACTIVE.pool.(
      inflight := map[D.C1 := P.Pending(D.W1, 0, D.S1, Stateful)],
      handles := map[D.C1 := P.Handle(D.S1, D.W1, P.FRESH)],
      sessions := map[D.S1 := D.REC.(state := P.Active, openWaiter := false, statefulCount := 1)]),
    usedCommands := {D.C1},
    holders := map[D.S1 := Registered(SUBMIT, Stateful, D.W1, 0)])

  const WRITTEN := REGISTERED.(
    holders := map[], log := map[D.S1 := [RunSent]],
    conns := map[D.W1 := Conn(0, [SessionRun(D.S1, SUBMIT, Stateful)], [], Serving(D.S1, D.SCHED))])

  // The loop before the command, with it queued, running, and cancelled.

  const QUEUED := D.SCHED.(queued := [S.Job(SUBMIT, Stateful, 0)], book := [S.Ticket(SUBMIT, Stateful, S.Waiting)])

  const RUNNING := D.SCHED.(running := map[D.C1 := S.Slot(0, false)], stateful := Some(D.C1),
                            book := [S.Ticket(SUBMIT, Stateful, S.Started(S.Given(D.SCHED, SUBMIT), false))])

  const FLAGGED := RUNNING.(running := map[D.C1 := S.Slot(0, true)])

  const READ := WRITTEN.(conns := map[D.W1 := Conn(0, [], [], Serving(D.S1, QUEUED))])

  const STARTED := WRITTEN.(conns := map[D.W1 := Conn(0, [], [], Serving(D.S1, RUNNING))])

  const ASKED := STARTED.(pool := STARTED.pool.(
    handles := map[D.C1 := P.Handle(D.S1, D.W1, P.FRESH.(cancelRequested := true))]))

  const TOLD := ASKED.(conns := map[D.W1 := Conn(0, [Cancel(D.C1)], [], Serving(D.S1, RUNNING))])

  const CANCELLED := ASKED.(conns := map[D.W1 := Conn(0, [], [], Serving(D.S1, FLAGGED))])

  const TO_CANCELLED: seq<Label> := [
    Hello(D.W1, "p"), CreateSession(D.S1, "p", D.NO_INPUTS, 0), SendOpen(D.S1, true), ReceiveFrame(D.W1, None, None),
    Deliver(D.W1, 0), BeginSubmit(D.S1, D.C1, "true", Stateful), RegisterCommand(D.S1, 0), SendRun(D.S1, true),
    ReceiveFrame(D.W1, None, None), Work(D.W1, S.Admission(S.Prepared)), CancelCommand(D.C1), SendCancel(D.C1),
    ReceiveFrame(D.W1, None, None)]

  lemma LockStep()
    ensures Next(D.ACTIVE, BeginSubmit(D.S1, D.C1, "true", Stateful)) == LOCKED
  {
    hide Next, S.Start;
    NextOnWire(D.ACTIVE, BeginSubmit(D.S1, D.C1, "true", Stateful));
  }

  lemma RegisterStep()
    ensures Next(LOCKED, RegisterCommand(D.S1, 0)) == REGISTERED
  {
    hide Next, S.Start;
    NextAtPool(LOCKED, RegisterCommand(D.S1, 0));
    assert P.Refusal(LOCKED.pool, D.S1, Stateful).None?;
  }

  lemma WriteStep()
    ensures Next(REGISTERED, SendRun(D.S1, true)) == WRITTEN
  {
    hide Next, S.Start;
    NextOnWire(REGISTERED, SendRun(D.S1, true));
    assert [] + [SessionRun(D.S1, SUBMIT, Stateful)] == [SessionRun(D.S1, SUBMIT, Stateful)];
    assert [] + [RunSent] == [RunSent];
  }

  lemma NothingYet()
    ensures var s := D.SCHED;
            s.queued == [] && s.running == map[] && s.stateful == None && s.ended == None && s.book == []
  {
  }

  lemma QueuedStep()
    ensures S.Step(D.SCHED, S.RunFrame(SUBMIT, Stateful)) == (QUEUED, [])
  {
    hide S.Start;
    NothingYet();
    assert !S.Queued(D.SCHED.queued, D.C1) && !S.Refused(D.SCHED, D.C1);
    assert D.SCHED.queued + [S.Job(SUBMIT, Stateful, 0)] == QUEUED.queued;
    assert D.SCHED.book + [S.Ticket(SUBMIT, Stateful, S.Waiting)] == QUEUED.book;
  }

  lemma RunningStep()
    ensures S.Step(QUEUED, S.Admission(S.Prepared)) == (RUNNING, [])
  {
    hide S.Start;
    NothingYet();
    assert QUEUED.queued[1..] == [];
    var book := S.Mark(QUEUED.book, 0, S.Started(S.Given(QUEUED, SUBMIT), false));
    assert book == RUNNING.book;
    assert S.Launch(QUEUED).(stateful := Some(D.C1)) == RUNNING;
  }

  lemma FlaggedStep()
    ensures S.Step(RUNNING, S.CancelFrame(D.C1)) == (FLAGGED, [])
  {
    hide S.Start;
    NothingYet();
    assert RUNNING.running[D.C1 := S.Slot(0, true)] == FLAGGED.running;
  }

  lemma ReadStep()
    ensures Next(WRITTEN, ReceiveFrame(D.W1, None, None)) == READ
  {
    hide Next, S.Start, S.Step, QUEUED;
    NextOnWire(WRITTEN, ReceiveFrame(D.W1, None, None));
    QueuedStep();
    Open();
    assert [SessionRun(D.S1, SUBMIT, Stateful)][1..] == [];
    assert Receive(WRITTEN.conns[D.W1], None, None) == READ.conns[D.W1];
  }

  /** None of these loops is over. */
  lemma Open()
    ensures QUEUED.ended == None && RUNNING.ended == None && FLAGGED.ended == None
  {
    hide S.Start;
    NothingYet();
  }

  lemma StartStep()
    ensures Next(READ, Work(D.W1, S.Admission(S.Prepared))) == STARTED
  {
    hide Next, S.Start, S.Step, QUEUED, RUNNING;
    NextOnWire(READ, Work(D.W1, S.Admission(S.Prepared)));
    RunningStep();
    Open();
    assert Worked(READ.conns[D.W1], D.S1, QUEUED, S.Admission(S.Prepared)) == STARTED.conns[D.W1];
  }

  lemma AskStep()
    ensures Next(STARTED, CancelCommand(D.C1)) == ASKED
  {
    hide Next, RUNNING;
    PoolOnlyStep(STARTED, CancelCommand(D.C1));
  }

  lemma TellStep()
    ensures Next(ASKED, SendCancel(D.C1)) == TOLD
  {
    hide Next, RUNNING;
    NextOnWire(ASKED, SendCancel(D.C1));
    assert [] + [Cancel(D.C1)] == [Cancel(D.C1)];
  }

  lemma HearStep()
    ensures Next(TOLD, ReceiveFrame(D.W1, None, None)) == CANCELLED
  {
    hide Next, S.Step, RUNNING, FLAGGED;
    NextOnWire(TOLD, ReceiveFrame(D.W1, None, None));
    FlaggedStep();
    Open();
    assert [Cancel(D.C1)][1..] == [];
    assert Receive(TOLD.conns[D.W1], None, None) == CANCELLED.conns[D.W1];
  }

  lemma FirstSteps()
    ensures Exec(INIT, TO_CANCELLED) == Exec(D.ACTIVE, TO_CANCELLED[5..])
  {
    hide Next, Exec, S.Start;
    D.HelloStep();
    D.CreateStep();
    D.OpenStep();
    D.ReceiveStep();
    D.ReadyStep();
    D.Unroll(INIT, TO_CANCELLED);
    D.Unroll(D.HELLO, TO_CANCELLED[1..]);
    D.Unroll(D.CREATED, TO_CANCELLED[2..]);
    D.Unroll(D.SENT, TO_CANCELLED[3..]);
    D.Unroll(D.READY, TO_CANCELLED[4..]);
  }

  lemma MiddleSteps()
    ensures Exec(D.ACTIVE, TO_CANCELLED[5..]) == Exec(READ, TO_CANCELLED[9..])
  {
    hide Next, Exec, S.Start;
    LockStep();
    RegisterStep();
    WriteStep();
    ReadStep();
    D.Unroll(D.ACTIVE, TO_CANCELLED[5..]);
    D.Unroll(LOCKED, TO_CANCELLED[6..]);
    D.Unroll(REGISTERED, TO_CANCELLED[7..]);
    D.Unroll(WRITTEN, TO_CANCELLED[8..]);
  }

  lemma LastSteps()
    ensures Exec(READ, TO_CANCELLED[9..]) == CANCELLED
  {
    hide Next, Exec, READ, STARTED, ASKED, TOLD, CANCELLED;
    StartStep();
    AskStep();
    TellStep();
    HearStep();
    D.Unroll(READ, TO_CANCELLED[9..]);
    D.Unroll(STARTED, TO_CANCELLED[10..]);
    D.Unroll(ASKED, TO_CANCELLED[11..]);
    assert TO_CANCELLED[12..] == [ReceiveFrame(D.W1, None, None)];
    LastOne(TOLD, ReceiveFrame(D.W1, None, None));
  }

  /** It happens: after this run, in which a running stateful command is cancelled
      and does not stop, a terminal is attached to a session whose worker still
      holds that command. */
  lemma StuckRun()
    ensures var s := Exec(INIT, TO_CANCELLED + GiveUp(D.W1, D.S1, D.C1, 1, 0));
            && D.S1 in s.pool.sessions && s.pool.sessions[D.S1].terminal == Some(1)
            && D.W1 in s.conns && LeftBy(s.conns[D.W1].worker).Some?
            && G.HoldsStateful(LeftBy(s.conns[D.W1].worker).value)
  {
    hide Next, Exec, GiveUp, G.HoldsStateful, S.Start;
    FirstSteps();
    MiddleSteps();
    LastSteps();
    NothingYet();
    assert RunsAlone(CANCELLED, D.W1, D.S1, D.C1);
    hide RunsAlone;
    TerminalBesideStuck(TO_CANCELLED, D.W1, D.S1, D.C1, 1, 0);
  }
}
