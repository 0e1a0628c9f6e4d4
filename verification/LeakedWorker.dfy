/** The one way a clean worker is not handed out again: the server has forgotten
    its session before it reads the worker's report. */
module LeakedWorker {
  import opened Wrappers
  import opened Protocol
  import P = ServerPool
  import opened Link
  import opened System
  import opened Composition
  import R = SessionRuns
  import D = Drops

  /** The worker is owned by a session the server does not know. */
  predicate Leaked(p: P.Pool, w: WorkerId, id: SessionId) {
    w in p.workerSessions && p.workerSessions[w] == id && id !in p.sessions
  }

  lemma ClosedKnown(p: P.Pool, w: WorkerId, id: SessionId, error: Option<string>, now: int)
    requires id in p.sessions && p.sessions[id].workerId == w && w in p.liveness
    ensures var r := P.SessionClosed(p, w, id, error, true, now);
            r.Some? && Idle(r.value.pool.idle, w)
  {
    var idle' := P.SessionClosed(p, w, id, error, true, now).value.pool.idle;
    assert idle'[|idle'| - 1].workerId == w;
  }

  lemma OwnerOf(s: Sys, w: WorkerId, id: SessionId)
    requires SysInv(s) && w in s.conns && w in s.pool.workerSessions && s.pool.workerSessions[w] == id
    ensures w in s.pool.liveness && (id in s.pool.sessions ==> s.pool.sessions[id].workerId == w)
    ensures !Idle(s.pool.idle, w)
  {
    hide LinksInv, HoldersInv, InflightHome, UsedInv, P.RecordsInv, P.CountInv, P.InflightInv;
  }

  /** A worker that reports its session over and itself reusable becomes idle if
      and only if the server still knows the session; otherwise it stays owned. */
  lemma ReportFrees(labels: seq<Label>, w: WorkerId, now: int)
    requires var s := Exec(INIT, labels);
             w in s.conns && s.conns[w].up != [] && s.conns[w].up[0].SessionClosed? && s.conns[w].up[0].reusable
    ensures var s := Exec(INIT, labels);
            var id := s.conns[w].up[0].sessionId;
            var p' := Next(s, Deliver(w, now)).pool;
            && (Idle(p'.idle, w) <==> id in s.pool.sessions)
            && (id !in s.pool.sessions ==> Leaked(p', w, id))
  {
    hide Exec, Next, SysInv, P.SessionClosed;
    Reachable(labels);
    var s := Exec(INIT, labels);
    var f := s.conns[w].up[0];
    NextAtPool(s, Deliver(w, now));
    D.ReportOwned(s, w);
    OwnerOf(s, w, f.sessionId);
    if f.sessionId in s.pool.sessions {
      ClosedKnown(s.pool, w, f.sessionId, f.error, now);
    } else {
      ClosedUnknown(s.pool, w, f.sessionId, f.error, f.reusable, now);
    }
  }

  lemma ClosedUnknown(p: P.Pool, w: WorkerId, id: SessionId, error: Option<string>, reusable: bool, now: int)
    requires id !in p.sessions
    ensures P.SessionClosed(p, w, id, error, reusable, now).None?
  {
  }

  // ------------------------------------------------------------------- it lasts

  lemma CreateLeaked(s: Sys, id: SessionId, profile: string, inputs: P.Inputs, now: int, w: WorkerId, lost: SessionId)
    requires P.PoolInv(s.pool) && Leaked(s.pool, w, lost) && lost in s.usedSessions
    ensures Leaked(DoCreate(s, id, profile, inputs, now).pool, w, lost)
  {
    hide P.OwnerInv, P.RecordsInv, P.CountInv, P.InflightInv, P.RemoveAt, P.NewSession;
  }

  lemma DeliverLeaked(s: Sys, v: WorkerId, now: int, w: WorkerId, lost: SessionId)
    requires SysInv(s) && Leaked(s.pool, w, lost)
    ensures Leaked(DoDeliver(s, v, now).pool, w, lost)
  {
    hide SysInv, P.SessionReady, P.CompleteRequest, P.SessionClosed, Tasks;
    if v in s.conns && s.conns[v].up != [] {
      match s.conns[v].up[0]
      case SessionReady(id, error) => ReadyLeaked(s.pool, v, id, error, now, w, lost);
      case ResultOf(r) => ResultLeaked(s.pool, r.requestId, now, w, lost);
      case SessionClosed(id, error, reusable) =>
        D.ReportOwned(s, v);
        ClosedLeaked(s.pool, v, id, error, reusable, now, w, lost);
      case _ =>
    }
  }

  lemma ReadyLeaked(p: P.Pool, v: WorkerId, id: SessionId, error: Option<string>, now: int, w: WorkerId,
                    lost: SessionId)
    requires Leaked(p, w, lost)
    ensures Leaked(P.SessionReady(p, v, id, error, now), w, lost)
  {
  }

  lemma ResultLeaked(p: P.Pool, rid: ExecId, now: int, w: WorkerId, lost: SessionId)
    requires Leaked(p, w, lost)
    ensures Leaked(P.CompleteRequest(p, rid, now), w, lost)
  {
  }

  lemma ClosedLeaked(p: P.Pool, v: WorkerId, id: SessionId, error: Option<string>, reusable: bool, now: int,
                     w: WorkerId, lost: SessionId)
    requires Leaked(p, w, lost) && v in p.workerSessions && p.workerSessions[v] == id
    ensures P.SessionClosed(p, v, id, error, reusable, now).Some? ==>
              Leaked(P.SessionClosed(p, v, id, error, reusable, now).value.pool, w, lost)
  {
  }

  lemma DropLeaked(s: Sys, v: WorkerId, oom: bool, now: int, w: WorkerId, lost: SessionId)
    requires Leaked(s.pool, w, lost)
    ensures Leaked(DoTake(s, v, oom).pool, w, lost)
    ensures v != w ==> Leaked(DoForget(s, v, now).pool, w, lost)
  {
    hide Tasks, P.Retain;
  }

  lemma RegisterLeaked(s: Sys, id: SessionId, now: int, w: WorkerId, lost: SessionId)
    requires Leaked(s.pool, w, lost)
    ensures Leaked(DoRegister(s, id, now).pool, w, lost)
  {
  }

  lemma StepLeaked(s: Sys, l: Label, w: WorkerId, lost: SessionId)
    requires SysInv(s) && Leaked(s.pool, w, lost) && !(l.ForgetDropped? && l.w == w)
    ensures Leaked(Next(s, l).pool, w, lost)
  {
    hide Next, SysInv, Leaked, D.OwnersAside, DoDeliver, DoRegister, DoTake, DoForget, DoCreate;
    LeakedUsed(s, w, lost);
    NextAtPool(s, l);
    match l
    case Deliver(v, now) => DeliverLeaked(s, v, now, w, lost);
    case RegisterCommand(id, now) => RegisterLeaked(s, id, now, w, lost);
    case TakeDropped(v, oom) => DropLeaked(s, v, oom, 0, w, lost);
    case ForgetDropped(v, now) => DropLeaked(s, v, false, now, w, lost);
    case CreateSession(id, profile, inputs, now) => CreateLeaked(s, id, profile, inputs, now, w, lost);
    case _ =>
      D.AllLabels(l);
      D.AsideOwners(s, l);
      R.StepForward(s, l);
      AsideLeaked(s, Next(s, l), w, lost);
  }

  lemma LeakedUsed(s: Sys, w: WorkerId, lost: SessionId)
    requires SysInv(s) && Leaked(s.pool, w, lost)
    ensures lost in s.usedSessions && P.PoolInv(s.pool) && s.pool.sessions.Keys <= s.usedSessions
  {
    hide P.PoolInv, LinksInv, SinksInv, HoldersInv, InflightHome;
  }

  lemma AsideLeaked(s: Sys, s': Sys, w: WorkerId, lost: SessionId)
    requires Leaked(s.pool, w, lost) && lost in s.usedSessions && R.Forward(s, s') && D.SameOwners(s.pool, s'.pool)
    ensures Leaked(s'.pool, w, lost)
  {
  }

  /** A leaked worker stays owned by the forgotten session, and never idle, until it is dropped. */
  lemma {:induction false} LeakLasts(labels: seq<Label>, more: seq<Label>, w: WorkerId, lost: SessionId)
    requires Leaked(Exec(INIT, labels).pool, w, lost)
    requires forall i :: 0 <= i < |more| ==> !(more[i].ForgetDropped? && more[i].w == w)
    ensures var p := Exec(INIT, labels + more).pool; Leaked(p, w, lost) && !Idle(p.idle, w)
    decreases |more|
  {
    hide Next, SysInv, Leaked;
    if more == [] {
      assert labels + more == labels;
      Reachable(labels);
      OwnedNotIdle(Exec(INIT, labels), w, lost);
    } else {
      var l, rest := more[0], more[1..];
      assert forall i :: 0 <= i < |rest| ==> rest[i] == more[i + 1];
      Reachable(labels);
      StepLeaked(Exec(INIT, labels), l, w, lost);
      ExecConcat(INIT, labels, [l]);
      LastOne(Exec(INIT, labels), l);
      assert labels + more == labels + [l] + rest;
      LeakLasts(labels + [l], rest, w, lost);
    }
  }

  lemma OwnedNotIdle(s: Sys, w: WorkerId, lost: SessionId)
    requires SysInv(s) && Leaked(s.pool, w, lost)
    ensures !Idle(s.pool.idle, w)
  {
    hide LinksInv, BooksInv, P.OwnerInv, P.RecordsInv, P.CountInv, P.InflightInv;
  }

  // -------------------------------------------------------------- a run with a leak

  const WHY: Option<string> := Some("could not start session shell")

  const REFUSED := D.SENT.(conns := map[D.W1 := Conn(0, [], [SessionReady(D.S1, WHY)], Leaving(D.S1, WHY, None))])

  const FAILED := D.SENT.(
    conns := map[D.W1 := Conn(0, [], [], Leaving(D.S1, WHY, None))],
    pool := D.SENT.pool.(sessions := map[D.S1 := D.REC.(state := P.Failed, finishedAt := Some(0), inputs := P.CLEARED,
                                                        openWaiter := false)]))

  const SWEPT := FAILED.(pool := FAILED.pool.(sessions := map[]))

  const REPORTED := SWEPT.(conns := map[D.W1 := Conn(0, [], [SessionClosed(D.S1, WHY, true)], Awaiting)])

  const LEAK: seq<Label> := [
    Hello(D.W1, "p"), CreateSession(D.S1, "p", D.NO_INPUTS, 0), SendOpen(D.S1, true), ReceiveFrame(D.W1, WHY, None),
    Deliver(D.W1, 0), ForgetSessions(P.Gate(9, 1)), SendReport(D.W1, false, false, true)]

  lemma RefuseStep()
    ensures Next(D.SENT, ReceiveFrame(D.W1, WHY, None)) == REFUSED
  {
    hide Next;
    NextOnWire(D.SENT, ReceiveFrame(D.W1, WHY, None));
    assert [D.OPEN][1..] == [];
    assert Receive(D.SENT.conns[D.W1], WHY, None) == REFUSED.conns[D.W1];
  }

  lemma FailStep()
    ensures Next(REFUSED, Deliver(D.W1, 0)) == FAILED
  {
    hide Next;
    NextAtPool(REFUSED, Deliver(D.W1, 0));
    assert [SessionReady(D.S1, WHY)][1..] == [];
  }

  lemma SweepStep()
    ensures Next(FAILED, ForgetSessions(P.Gate(9, 1))) == SWEPT
  {
    hide Next;
    PoolOnlyStep(FAILED, ForgetSessions(P.Gate(9, 1)));
    assert P.Forget(FAILED.pool, P.Gate(9, 1)).sessions == map[];
  }

  lemma ReportStep()
    ensures Next(SWEPT, SendReport(D.W1, false, false, true)) == REPORTED
  {
    hide Next;
    NextOnWire(SWEPT, SendReport(D.W1, false, false, true));
    assert [] + [SessionClosed(D.S1, WHY, true)] == [SessionClosed(D.S1, WHY, true)];
    assert Report(SWEPT.conns[D.W1], false, false, true) == REPORTED.conns[D.W1];
  }

  lemma LeakSteps()
    ensures Exec(INIT, LEAK) == REPORTED
  {
    hide Next, Exec;
    D.HelloStep();
    D.CreateStep();
    D.OpenStep();
    RefuseStep();
    FailStep();
    SweepStep();
    ReportStep();
    D.Unroll(INIT, LEAK);
    D.Unroll(D.HELLO, LEAK[1..]);
    D.Unroll(D.CREATED, LEAK[2..]);
    D.Unroll(D.SENT, LEAK[3..]);
    D.Unroll(REFUSED, LEAK[4..]);
    D.Unroll(FAILED, LEAK[5..]);
    assert LEAK[6..] == [SendReport(D.W1, false, false, true)];
    LastOne(SWEPT, SendReport(D.W1, false, false, true));
  }

  /** It happens: a session fails to open and is swept before its worker, clean and
      ready, reports; the worker is never idle again until it is dropped. */
  lemma LeakRun(now: int, more: seq<Label>)
    requires forall i :: 0 <= i < |more| ==> !(more[i].ForgetDropped? && more[i].w == D.W1)
    ensures var p := Exec(INIT, LEAK + [Deliver(D.W1, now)] + more).pool;
            Leaked(p, D.W1, D.S1) && !Idle(p.idle, D.W1)
  {
    hide Next, Exec, Leaked;
    LeakSteps();
    ReportFrees(LEAK, D.W1, now);
    ExecConcat(INIT, LEAK, [Deliver(D.W1, now)]);
    LastOne(REPORTED, Deliver(D.W1, now));
    LeakLasts(LEAK + [Deliver(D.W1, now)], more, D.W1, D.S1);
  }
}
