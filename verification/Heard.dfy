/** Mutual exclusion beyond the connections that stand: a session with a terminal
    has had the result of every stateful command it ever registered. */
module Heard {
  import opened Wrappers
  import opened Protocol
  import P = ServerPool
  import opened Link
  import opened System
  import opened Composition
  import O = Outcomes
  import R = SessionRuns
  import D = Drops

  /** The session's stateful commands that a step takes out of flight because their worker is dropped. */
  function TakenBy(s: Sys, l: Label, id: SessionId): set<ExecId> {
    if l.TakeDropped? then set rid | rid in P.StatefulOf(s.pool.inflight, id) && s.pool.inflight[rid].workerId == l.w
    else {}
  }

  /** How many of them a run takes. */
  function Unheard(s: Sys, labels: seq<Label>, id: SessionId): nat
    decreases |labels|
  {
    if labels == [] then 0 else |TakenBy(s, labels[0], id)| + Unheard(Next(s, labels[0]), labels[1..], id)
  }

  /** The session's count is that of its stateful commands in flight and of those taken. */
  predicate Counted(p: P.Pool, used: set<SessionId>, id: SessionId, taken: nat) {
    && (id !in used ==> taken == 0)
    && (id in p.sessions && P.Holding(p.sessions[id].state) ==>
          p.sessions[id].statefulCount == |P.StatefulOf(p.inflight, id)| + taken)
  }

  /** A terminal is attached only while the count is zero. */
  predicate Free(p: P.Pool, id: SessionId) {
    id in p.sessions && p.sessions[id].terminal.Some? ==> p.sessions[id].statefulCount == 0
  }

  // ------------------------------------------------------------------ the count

  lemma SameCounted(p: P.Pool, p': P.Pool, used: set<SessionId>, used': set<SessionId>, id: SessionId, taken: nat)
    requires Counted(p, used, id, taken) && D.SameCounts(p, p') && used <= used' && p.sessions.Keys <= used
    requires id in p'.sessions && id !in p.sessions ==> id !in used
    ensures Counted(p', used', id, taken)
  {
    if id in p'.sessions && id !in p.sessions {
      assert P.StatefulOf(p'.inflight, id) == {};
    }
  }

  lemma SubmitCounted(p: P.Pool, used: set<SessionId>, id: SessionId, taken: nat, i: SessionId, rid: ExecId, mode: Mode,
                      w: WorkerId, sink: nat, now: int)
    requires Counted(p, used, id, taken) && rid !in p.inflight && P.Submit(p, i, rid, mode, w, sink, now).Ok?
    ensures Counted(P.Submit(p, i, rid, mode, w, sink, now).value, used, id, taken)
  {
    P.StatefulAdd(p.inflight, rid, P.Pending(w, sink, i, mode), id);
  }

  lemma ResultCounted(p: P.Pool, used: set<SessionId>, id: SessionId, taken: nat, rid: ExecId, now: int)
    requires Counted(p, used, id, taken)
    ensures Counted(P.CompleteRequest(p, rid, now), used, id, taken)
  {
    if rid in p.inflight {
      P.StatefulRemove(p.inflight, rid, id);
      assert rid in P.StatefulOf(p.inflight, id) <==> p.inflight[rid].sessionId == id && p.inflight[rid].mode.Stateful?;
    }
  }

  lemma ClosedCounted(p: P.Pool, used: set<SessionId>, id: SessionId, taken: nat,
                      w: WorkerId, i: SessionId, error: Option<string>, reusable: bool, now: int)
    requires Counted(p, used, id, taken) && P.SessionClosed(p, w, i, error, reusable, now).Some?
    ensures Counted(P.SessionClosed(p, w, i, error, reusable, now).value.pool, used, id, taken)
  {
    var p' := P.SessionClosed(p, w, i, error, reusable, now).value.pool;
    if i != id {
      assert P.StatefulOf(p'.inflight, id) == P.StatefulOf(p.inflight, id);
    }
  }

  lemma Parted(inflight: map<ExecId, P.Pending>, id: SessionId, w: WorkerId)
    ensures var gone := set rid | rid in P.StatefulOf(inflight, id) && inflight[rid].workerId == w;
            |P.StatefulOf(inflight, id)| == |P.StatefulOf(inflight - P.OnWorker(inflight, w), id)| + |gone|
  {
    var gone := set rid | rid in P.StatefulOf(inflight, id) && inflight[rid].workerId == w;
    var left := P.StatefulOf(inflight - P.OnWorker(inflight, w), id);
    assert P.StatefulOf(inflight, id) == left + gone && left !! gone;
  }

  lemma NothingUsed(s: Sys, id: SessionId)
    requires UsedInv(s) && id !in s.usedSessions
    ensures P.StatefulOf(s.pool.inflight, id) == {}
  {
  }

  lemma TakeCounted(s: Sys, id: SessionId, taken: nat, w: WorkerId, oom: bool)
    requires Counted(s.pool, s.usedSessions, id, taken) && UsedInv(s)
    ensures Counted(DoTake(s, w, oom).pool, s.usedSessions, id, taken + |TakenBy(s, TakeDropped(w, oom), id)|)
  {
    hide Tasks, P.StatefulOf, P.OnWorker, UsedInv;
    Parted(s.pool.inflight, id, w);
    if id !in s.usedSessions {
      NothingUsed(s, id);
      assert TakenBy(s, TakeDropped(w, oom), id) == {};
    }
  }

  lemma RestCounted(p: P.Pool, used: set<SessionId>, id: SessionId, taken: nat, w: WorkerId, now: int)
    requires Counted(p, used, id, taken)
    ensures Counted(P.DropRest(p, w, now).0, used, id, taken)
  {
    hide P.Retain;
  }

  lemma RegisterCounted(s: Sys, id: SessionId, taken: nat, i: SessionId, now: int)
    requires Counted(s.pool, s.usedSessions, id, taken) && UsedInv(s)
    ensures Counted(DoRegister(s, i, now).pool, s.usedSessions, id, taken)
  {
    hide Counted, P.Submit;
    if i in s.holders && s.holders[i].Submitting? && s.holders[i].execute.requestId !in s.usedCommands {
      var h := s.holders[i];
      if P.Submit(s.pool, i, h.execute.requestId, h.mode, h.worker, h.sink, now).Ok? {
        SubmitCounted(s.pool, s.usedSessions, id, taken, i, h.execute.requestId, h.mode, h.worker, h.sink, now);
      }
    }
  }

  lemma DeliverCounted(s: Sys, id: SessionId, taken: nat, w: WorkerId, now: int)
    requires Counted(s.pool, s.usedSessions, id, taken) && s.pool.sessions.Keys <= s.usedSessions
    ensures Counted(DoDeliver(s, w, now).pool, s.usedSessions, id, taken)
  {
    hide Counted, D.SameCounts, P.SessionReady, P.CompleteRequest, P.SessionClosed, Tasks;
    if w in s.conns && s.conns[w].up != [] {
      match s.conns[w].up[0]
      case SessionReady(i, error) =>
        D.ReadyCounts(s.pool, w, i, error, now);
        ReadyKeys(s.pool, w, i, error, now);
        SameCounted(s.pool, DoDeliver(s, w, now).pool, s.usedSessions, s.usedSessions, id, taken);
      case ResultOf(r) => ResultCounted(s.pool, s.usedSessions, id, taken, r.requestId, now);
      case SessionClosed(i, error, reusable) =>
        if P.SessionClosed(s.pool, w, i, error, reusable, now).Some? {
          ClosedCounted(s.pool, s.usedSessions, id, taken, w, i, error, reusable, now);
        }
      case _ =>
    }
  }

  lemma ReadyKeys(p: P.Pool, w: WorkerId, id: SessionId, error: Option<string>, now: int)
    ensures P.SessionReady(p, w, id, error, now).sessions.Keys == p.sessions.Keys
  {
  }

  lemma StepCounted(s: Sys, l: Label, id: SessionId, taken: nat)
    requires Counted(s.pool, s.usedSessions, id, taken) && UsedInv(s)
    ensures Counted(Next(s, l).pool, Next(s, l).usedSessions, id, taken + |TakenBy(s, l, id)|)
  {
    hide Next, Counted, UsedInv, DoDeliver, DoRegister, DoTake, DoForget, D.SameCounts, R.Forward;
    UsedKeys(s);
    if !l.TakeDropped? {
      NoneTaken(s, l, id);
    }
    hide TakenBy;
    NextAtPool(s, l);
    match l
    case Deliver(w, now) =>
      DeliverCounted(s, id, taken, w, now);
      SameUsed(s, l);
    case RegisterCommand(i, now) =>
      RegisterCounted(s, id, taken, i, now);
      SameUsed(s, l);
    case TakeDropped(w, oom) =>
      TakeCounted(s, id, taken, w, oom);
      SameUsed(s, l);
    case ForgetDropped(w, now) =>
      ForgetCounted(s, id, taken, w, now);
      SameUsed(s, l);
    case _ => QuietCounted(s, l, id, taken);
  }

  lemma QuietCounted(s: Sys, l: Label, id: SessionId, taken: nat)
    requires Counted(s.pool, s.usedSessions, id, taken) && UsedInv(s)
    requires !l.Deliver? && !l.RegisterCommand? && !l.TakeDropped? && !l.ForgetDropped?
    ensures Counted(Next(s, l).pool, Next(s, l).usedSessions, id, taken)
  {
    hide Next, Counted, UsedInv, D.SameCounts, R.Forward;
    UsedKeys(s);
    D.StepCounts(s, l);
    R.StepForward(s, l);
    NewKeys(s, Next(s, l), id);
    SameCounted(s.pool, Next(s, l).pool, s.usedSessions, Next(s, l).usedSessions, id, taken);
  }

  lemma NoneTaken(s: Sys, l: Label, id: SessionId)
    requires !l.TakeDropped?
    ensures TakenBy(s, l, id) == {}
  {
  }

  lemma UsedKeys(s: Sys)
    requires UsedInv(s)
    ensures s.pool.sessions.Keys <= s.usedSessions
  {
  }

  lemma ForgetCounted(s: Sys, id: SessionId, taken: nat, w: WorkerId, now: int)
    requires Counted(s.pool, s.usedSessions, id, taken)
    ensures Counted(DoForget(s, w, now).pool, s.usedSessions, id, taken)
  {
    hide Counted, P.DropRest;
    RestCounted(s.pool, s.usedSessions, id, taken, w, now);
  }

  lemma SameUsed(s: Sys, l: Label)
    requires l.Deliver? || l.RegisterCommand? || l.TakeDropped? || l.ForgetDropped?
    ensures Next(s, l).usedSessions == s.usedSessions
  {
    hide Next, P.SessionReady, P.CompleteRequest, P.SessionClosed, Tasks, P.DropRest, P.DropTake, P.Submit;
    NextAtPool(s, l);
  }

  lemma NewKeys(s: Sys, s': Sys, id: SessionId)
    requires R.Forward(s, s')
    ensures s.usedSessions <= s'.usedSessions
    ensures id in s'.pool.sessions && id !in s.pool.sessions ==> id !in s.usedSessions
  {
  }

  // --------------------------------------------------------------- the terminal

  lemma PoolFree(p: P.Pool, l: Label, id: SessionId)
    requires Free(p, id) && PoolOnly(l)
    ensures Free(PoolStep(p, l), id)
  {
  }

  lemma SubmitFree(p: P.Pool, id: SessionId, i: SessionId, rid: ExecId, mode: Mode, w: WorkerId, sink: nat, now: int)
    requires Free(p, id) && P.Submit(p, i, rid, mode, w, sink, now).Ok?
    ensures Free(P.Submit(p, i, rid, mode, w, sink, now).value, id)
  {
  }

  lemma ReadyFree(p: P.Pool, id: SessionId, w: WorkerId, i: SessionId, error: Option<string>, now: int)
    requires Free(p, id)
    ensures Free(P.SessionReady(p, w, i, error, now), id)
  {
  }

  lemma ResultFree(p: P.Pool, id: SessionId, rid: ExecId, now: int)
    requires Free(p, id)
    ensures Free(P.CompleteRequest(p, rid, now), id)
  {
  }

  lemma ClosedFree(p: P.Pool, id: SessionId, w: WorkerId, i: SessionId, error: Option<string>, reusable: bool, now: int)
    requires Free(p, id)
    ensures P.SessionClosed(p, w, i, error, reusable, now).Some? ==>
              Free(P.SessionClosed(p, w, i, error, reusable, now).value.pool, id)
  {
  }

  lemma RestFree(p: P.Pool, id: SessionId, w: WorkerId, now: int)
    requires Free(p, id)
    ensures Free(P.DropRest(p, w, now).0, id)
  {
    hide P.Retain;
  }

  lemma DeliverFree(s: Sys, id: SessionId, w: WorkerId, now: int)
    requires Free(s.pool, id)
    ensures Free(DoDeliver(s, w, now).pool, id)
  {
    hide Free, P.SessionReady, P.CompleteRequest, P.SessionClosed, Tasks;
    if w in s.conns && s.conns[w].up != [] {
      match s.conns[w].up[0]
      case SessionReady(i, error) => ReadyFree(s.pool, id, w, i, error, now);
      case ResultOf(r) => ResultFree(s.pool, id, r.requestId, now);
      case SessionClosed(i, error, reusable) => ClosedFree(s.pool, id, w, i, error, reusable, now);
      case _ =>
    }
  }

  lemma RegisterFree(s: Sys, id: SessionId, i: SessionId, now: int)
    requires Free(s.pool, id)
    ensures Free(DoRegister(s, i, now).pool, id)
  {
    hide Free, P.Submit;
    if i in s.holders && s.holders[i].Submitting? {
      var h := s.holders[i];
      if P.Submit(s.pool, i, h.execute.requestId, h.mode, h.worker, h.sink, now).Ok? {
        SubmitFree(s.pool, id, i, h.execute.requestId, h.mode, h.worker, h.sink, now);
      }
    }
  }

  lemma CreateFree(s: Sys, id: SessionId, i: SessionId, profile: string, inputs: P.Inputs, now: int)
    requires Free(s.pool, id)
    ensures Free(DoCreate(s, i, profile, inputs, now).pool, id)
  {
  }

  lemma OtherFree(s: Sys, id: SessionId, w: WorkerId, profile: string, oom: bool, now: int)
    requires Free(s.pool, id)
    ensures Free(DoHello(s, w, profile).pool, id) && Free(DoTake(s, w, oom).pool, id)
    ensures Free(DoForget(s, w, now).pool, id)
  {
    hide Tasks, P.DropRest;
    RestFree(s.pool, id, w, now);
  }

  lemma StepFree(s: Sys, l: Label, id: SessionId)
    requires Free(s.pool, id)
    ensures Free(Next(s, l).pool, id)
  {
    hide Next, Free, DoDeliver, DoRegister, DoTake, DoForget, DoHello, DoCreate, PoolStep;
    NextAtPool(s, l);
    match l
    case Deliver(w, now) => DeliverFree(s, id, w, now);
    case RegisterCommand(i, now) => RegisterFree(s, id, i, now);
    case CreateSession(i, profile, inputs, now) => CreateFree(s, id, i, profile, inputs, now);
    case Hello(w, profile) => OtherFree(s, id, w, profile, false, 0);
    case TakeDropped(w, oom) => OtherFree(s, id, w, "", oom, 0);
    case ForgetDropped(w, now) => OtherFree(s, id, w, "", false, now);
    case SettleHandle(rid, verdict, now) => SettleFree(s, id, rid, verdict, now);
    case BeginClose(_, _, _) => CloseFree(s, id, l);
    case _ =>
      if PoolOnly(l) {
        PoolOnlyStep(s, l);
        PoolFree(s.pool, l, id);
      } else {
        R.LinkForward(s, l);
      }
  }

  lemma SettleFree(s: Sys, id: SessionId, rid: ExecId, verdict: P.Verdict, now: int)
    requires Free(s.pool, id)
    ensures Free(DoSettle(s, rid, verdict, now).pool, id)
  {
    hide P.Settle;
  }

  lemma CloseFree(s: Sys, id: SessionId, l: Label)
    requires Free(s.pool, id) && l.BeginClose?
    ensures Free(Next(s, l).pool, id)
  {
    hide Next, DoBeginClose;
    NextAtPool(s, l);
    if l.id in s.holders {
      O.HeldClose(s, l);
    } else {
      BeginCloseShape(s, l.id, l.gate, l.waiter);
    }
  }

  // ------------------------------------------------------------------- all runs

  lemma {:induction false} RunHeard(s: Sys, labels: seq<Label>, id: SessionId, taken: nat)
    requires SysInv(s) && Free(s.pool, id) && Counted(s.pool, s.usedSessions, id, taken)
    ensures var s' := Exec(s, labels);
            Free(s'.pool, id) && Counted(s'.pool, s'.usedSessions, id, taken + Unheard(s, labels, id))
    decreases |labels|
  {
    hide Next, Free, Counted, TakenBy, ConnInv, P.PoolInv, LinksInv, SinksInv, HoldersInv, InflightHome, UsedInv;
    if labels != [] {
      StepFree(s, labels[0], id);
      StepCounted(s, labels[0], id, taken);
      NextPreserves(s, labels[0]);
      RunHeard(Next(s, labels[0]), labels[1..], id, taken + |TakenBy(s, labels[0], id)|);
    }
  }

  /** While a terminal is attached, every stateful command the session ever
      registered has been answered: none is in flight, and none was taken by a
      drop, so that not even a worker the server has cut off can be running one
      it has not answered. */
  lemma TerminalHeard(labels: seq<Label>, id: SessionId)
    ensures var p := Exec(INIT, labels).pool;
            id in p.sessions && p.sessions[id].terminal.Some? ==>
              p.sessions[id].statefulCount == 0 && P.StatefulOf(p.inflight, id) == {} && Unheard(INIT, labels, id) == 0
  {
    hide Next, SysInv, Unheard;
    O.InitRun();
    RunHeard(INIT, labels, id, 0);
    Reachable(labels);
    var p := Exec(INIT, labels).pool;
    if id in p.sessions && p.sessions[id].terminal.Some? {
      HoldsTerminal(Exec(INIT, labels), id);
    }
  }

  lemma HoldsTerminal(s: Sys, id: SessionId)
    requires SysInv(s) && id in s.pool.sessions && s.pool.sessions[id].terminal.Some?
    ensures P.Holding(s.pool.sessions[id].state) && P.StatefulOf(s.pool.inflight, id) == {}
  {
    hide BooksInv, LinksInv, P.IdleInv, P.OwnerInv, P.InflightInv;
  }
}
