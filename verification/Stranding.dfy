/** Which commands a drop strands: those registered on its worker between its two
    halves, and no others. */
module Stranding {
  import opened Wrappers
  import opened Protocol
  import P = ServerPool
  import opened Link
  import opened System
  import opened Composition
  import O = Outcomes
  import R = SessionRuns
  import D = Drops

  /** The command a step registers on a worker, if it does. */
  function RegisteredBy(s: Sys, l: Label, w: WorkerId): set<ExecId> {
    if l.RegisterCommand? && l.id in s.holders && s.holders[l.id].Submitting? && s.holders[l.id].worker == w
       && s.holders[l.id].execute.requestId !in s.usedCommands && P.Refusal(s.pool, l.id, s.holders[l.id].mode).None?
    then {s.holders[l.id].execute.requestId} else {}
  }

  /** The commands a run registers on a worker. */
  function RegisteredOn(s: Sys, labels: seq<Label>, w: WorkerId): set<ExecId>
    decreases |labels|
  {
    if labels == [] then {} else RegisteredBy(s, labels[0], w) + RegisteredOn(Next(s, labels[0]), labels[1..], w)
  }

  /** The server has begun to drop the worker: it is registered, and cut off. */
  predicate CutOff(s: Sys, w: WorkerId) { w in s.pool.liveness && w !in s.conns }

  // ------------------------------------------------ a cut-off worker stays cut off

  lemma WriteKeys(s: Sys, w: WorkerId, sink: nat, f: Frame, ok: bool)
    ensures Write(s, w, sink, f, ok).conns.Keys <= s.conns.Keys && Push(s, w, sink, f).conns.Keys <= s.conns.Keys
  {
  }

  lemma ServerKeys(s: Sys, l: Label)
    requires AtServer(l)
    ensures Next(s, l).conns.Keys <= s.conns.Keys
  {
    hide Write, Push;
    if l.SendOpen? && l.id in s.unsent {
      WriteKeys(s.(unsent := s.unsent - {l.id}), s.unsent[l.id].0, s.unsent[l.id].1, s.unsent[l.id].2, l.ok);
    } else if l.SendRun? && l.id in s.holders && s.holders[l.id].Registered? {
      var h := s.holders[l.id];
      WriteKeys(s.(holders := s.holders - {l.id}, log := s.log[l.id := LogOf(s, l.id) + [RunSent]]),
                h.worker, h.sink, SessionRun(l.id, h.execute, h.mode), l.ok);
    } else if l.SendClose? && l.id in s.holders {
      var h := s.holders[l.id];
      WriteKeys(s.(holders := s.holders - {l.id}, log := s.log[l.id := LogOf(s, l.id) + [CloseSent]]),
                h.worker, h.sink, SessionClose(l.id), l.ok);
    } else if l.OpenTimeout? && l.id in s.pool.sessions {
      WriteKeys(s, s.pool.sessions[l.id].workerId, s.pool.sessions[l.id].sink, SessionClose(l.id), true);
    } else if l.SendCancel? && l.rid in s.pool.inflight {
      WriteKeys(s, s.pool.inflight[l.rid].workerId, s.pool.inflight[l.rid].sink, Cancel(l.rid), true);
    }
  }

  lemma WorkerKeys(s: Sys, l: Label)
    requires AtWorker(l)
    ensures Next(s, l).conns.Keys <= s.conns.Keys
  {
    hide Receive, Worked, Report, Crash;
  }

  lemma PoolLiveness(p: P.Pool, l: Label)
    requires PoolOnly(l)
    ensures PoolStep(p, l).liveness == p.liveness
  {
  }

  lemma ReadCut(p: P.Pool, v: WorkerId, id: SessionId, error: Option<string>, reusable: bool, rid: ExecId, now: int)
    ensures P.SessionReady(p, v, id, error, now).liveness == p.liveness
    ensures P.CompleteRequest(p, rid, now).liveness == p.liveness
    ensures P.SessionClosed(p, v, id, error, reusable, now).Some? ==>
              P.SessionClosed(p, v, id, error, reusable, now).value.pool.liveness == p.liveness
  {
  }

  lemma DeliverCut(s: Sys, v: WorkerId, now: int)
    ensures DoDeliver(s, v, now).pool.liveness == s.pool.liveness && DoDeliver(s, v, now).conns.Keys <= s.conns.Keys
  {
    hide Tasks, P.SessionReady, P.CompleteRequest, P.SessionClosed;
    if v in s.conns && s.conns[v].up != [] {
      match s.conns[v].up[0]
      case SessionReady(id, error) => ReadCut(s.pool, v, id, error, false, ExecId(""), now);
      case ResultOf(r) => ReadCut(s.pool, v, SessionId(""), None, false, r.requestId, now);
      case SessionClosed(id, error, reusable) => ReadCut(s.pool, v, id, error, reusable, ExecId(""), now);
      case _ =>
    }
  }

  lemma RegisterCut(s: Sys, id: SessionId, now: int)
    ensures DoRegister(s, id, now).pool.liveness == s.pool.liveness && DoRegister(s, id, now).conns == s.conns
  {
  }

  lemma CreateCut(s: Sys, id: SessionId, profile: string, inputs: P.Inputs, now: int)
    ensures var s' := DoCreate(s, id, profile, inputs, now); s'.pool.liveness == s.pool.liveness && s'.conns == s.conns
  {
  }

  lemma HelloCut(s: Sys, v: WorkerId, profile: string, w: WorkerId)
    requires CutOff(s, w)
    ensures CutOff(DoHello(s, v, profile), w)
  {
  }

  lemma DropCut(s: Sys, v: WorkerId, oom: bool, now: int, w: WorkerId)
    requires CutOff(s, w)
    ensures CutOff(DoTake(s, v, oom), w)
    ensures v != w ==> CutOff(DoForget(s, v, now), w)
  {
    hide Tasks, P.Retain;
  }

  lemma SettleCut(s: Sys, rid: ExecId, verdict: P.Verdict, now: int, w: WorkerId)
    requires CutOff(s, w)
    ensures CutOff(DoSettle(s, rid, verdict, now), w)
  {
    hide P.Settle;
  }

  lemma StepCut(s: Sys, l: Label, w: WorkerId)
    requires CutOff(s, w) && !(l.ForgetDropped? && l.w == w)
    ensures CutOff(Next(s, l), w)
  {
    hide Next, DoBeginClose, DoDeliver, DoRegister, DoCreate, DoHello, DoTake, DoForget, DoSettle, PoolStep;
    NextAtPool(s, l);
    match l
    case Deliver(v, now) => DeliverCut(s, v, now);
    case RegisterCommand(id, now) => RegisterCut(s, id, now);
    case CreateSession(id, profile, inputs, now) => CreateCut(s, id, profile, inputs, now);
    case Hello(v, profile) => HelloCut(s, v, profile, w);
    case TakeDropped(v, oom) => DropCut(s, v, oom, 0, w);
    case ForgetDropped(v, now) => DropCut(s, v, false, now, w);
    case SettleHandle(rid, verdict, now) => SettleCut(s, rid, verdict, now, w);
    case BeginClose(id, gate, waiter) =>
      if id in s.holders {
        O.HeldClose(s, l);
      } else {
        BeginCloseShape(s, id, gate, waiter);
      }
    case _ =>
      if PoolOnly(l) {
        PoolOnlyStep(s, l);
        PoolLiveness(s.pool, l);
      } else if AtServer(l) {
        ServerKeys(s, l);
        R.LinkForward(s, l);
      } else {
        WorkerKeys(s, l);
        R.LinkForward(s, l);
      }
  }

  // -------------------------------------------------- the commands on such a worker

  lemma OneMore(inflight: map<ExecId, P.Pending>, rid: ExecId, pending: P.Pending, w: WorkerId)
    requires rid !in inflight
    ensures P.OnWorker(inflight[rid := pending], w)
            == P.OnWorker(inflight, w) + (if pending.workerId == w then {rid} else {})
  {
  }

  lemma RegisterOn(s: Sys, id: SessionId, now: int, w: WorkerId)
    requires UsedInv(s)
    ensures P.OnWorker(DoRegister(s, id, now).pool.inflight, w)
            == P.OnWorker(s.pool.inflight, w) + RegisteredBy(s, RegisterCommand(id, now), w)
  {
    hide P.OnWorker, P.Refusal;
    if id in s.holders && s.holders[id].Submitting? && s.holders[id].execute.requestId !in s.usedCommands
       && P.Refusal(s.pool, id, s.holders[id].mode).None? {
      var h := s.holders[id];
      OneMore(s.pool.inflight, h.execute.requestId, P.Pending(h.worker, h.sink, id, h.mode), w);
    }
  }

  /** Only a worker's own connection takes its commands out of flight. */
  lemma DeliverOn(s: Sys, v: WorkerId, now: int, w: WorkerId)
    requires SysInv(s) && w !in s.conns
    ensures P.OnWorker(DoDeliver(s, v, now).pool.inflight, w) == P.OnWorker(s.pool.inflight, w)
  {
    hide SysInv, P.SessionReady, P.CompleteRequest, P.SessionClosed, Tasks, P.OnWorker;
    if v in s.conns && s.conns[v].up != [] {
      match s.conns[v].up[0]
      case SessionReady(id, error) => ReadyOn(s.pool, v, id, error, now);
      case ResultOf(r) =>
        D.ResultOwned(s, v);
        Home(s, r.requestId, v);
        ResultOn(s.pool, r.requestId, now, w);
      case SessionClosed(id, error, reusable) =>
        if P.SessionClosed(s.pool, v, id, error, reusable, now).Some? {
          D.ReportOwned(s, v);
          ClosedHome(s, v, id);
          ClosedOn(s.pool, v, id, error, reusable, now, w);
        }
      case _ =>
    }
  }

  lemma ReadyOn(p: P.Pool, v: WorkerId, id: SessionId, error: Option<string>, now: int)
    ensures P.SessionReady(p, v, id, error, now).inflight == p.inflight
  {
  }

  lemma Home(s: Sys, rid: ExecId, v: WorkerId)
    requires SysInv(s) && rid in s.pool.inflight && v in s.pool.workerSessions
    requires s.pool.workerSessions[v] == s.pool.inflight[rid].sessionId
    ensures s.pool.inflight[rid].workerId == v
  {
    hide P.PoolInv, LinksInv, SinksInv, HoldersInv, UsedInv;
  }

  lemma ClosedHome(s: Sys, v: WorkerId, id: SessionId)
    requires SysInv(s) && v in s.pool.workerSessions && s.pool.workerSessions[v] == id
    ensures forall rid :: rid in P.InflightOf(s.pool.inflight, id) ==> s.pool.inflight[rid].workerId == v
  {
    hide SysInv;
    forall rid | rid in P.InflightOf(s.pool.inflight, id) ensures s.pool.inflight[rid].workerId == v {
      Home(s, rid, v);
    }
  }

  lemma ResultOn(p: P.Pool, rid: ExecId, now: int, w: WorkerId)
    requires rid in p.inflight && p.inflight[rid].workerId != w
    ensures P.OnWorker(P.CompleteRequest(p, rid, now).inflight, w) == P.OnWorker(p.inflight, w)
  {
  }

  lemma ClosedOn(p: P.Pool, v: WorkerId, id: SessionId, error: Option<string>, reusable: bool, now: int, w: WorkerId)
    requires v != w && forall rid :: rid in P.InflightOf(p.inflight, id) ==> p.inflight[rid].workerId == v
    requires P.SessionClosed(p, v, id, error, reusable, now).Some?
    ensures P.OnWorker(P.SessionClosed(p, v, id, error, reusable, now).value.pool.inflight, w)
            == P.OnWorker(p.inflight, w)
  {
  }

  lemma TakeOn(s: Sys, v: WorkerId, oom: bool, w: WorkerId)
    requires v != w
    ensures P.OnWorker(DoTake(s, v, oom).pool.inflight, w) == P.OnWorker(s.pool.inflight, w)
  {
    hide Tasks;
  }

  lemma StepOn(s: Sys, l: Label, w: WorkerId)
    requires SysInv(s) && w !in s.conns && !(l.TakeDropped? && l.w == w)
    ensures P.OnWorker(Next(s, l).pool.inflight, w) == P.OnWorker(s.pool.inflight, w) + RegisteredBy(s, l, w)
  {
    hide Next, P.OnWorker, ConnInv, P.PoolInv, LinksInv, SinksInv, HoldersInv, InflightHome;
    NextAtPool(s, l);
    match l
    case RegisterCommand(id, now) => RegisterOn(s, id, now, w);
    case Deliver(v, now) => DeliverOn(s, v, now, w);
    case TakeDropped(v, oom) => TakeOn(s, v, oom, w);
    case _ => QuietOn(s, l);
  }

  lemma QuietOn(s: Sys, l: Label)
    requires !l.RegisterCommand? && !l.Deliver? && !l.TakeDropped?
    ensures Next(s, l).pool.inflight == s.pool.inflight
  {
    hide Next, P.Finalize;
    NextAtPool(s, l);
    if PoolOnly(l) {
      PoolOnlyStep(s, l);
      D.PoolOwners(s.pool, l);
    } else if l.SettleHandle? {
      FinalizeShape(s.pool, l.rid, l.verdict, l.now);
    } else {
      O.NoCommandLabel(s, l);
    }
  }

  lemma {:induction false} RunOn(s: Sys, labels: seq<Label>, w: WorkerId)
    requires SysInv(s) && CutOff(s, w)
    requires forall i :: 0 <= i < |labels| ==>
               !((labels[i].TakeDropped? || labels[i].ForgetDropped?) && labels[i].w == w)
    ensures P.OnWorker(Exec(s, labels).pool.inflight, w) == P.OnWorker(s.pool.inflight, w) + RegisteredOn(s, labels, w)
    decreases |labels|
  {
    hide SysInv, Next, P.OnWorker, RegisteredBy;
    if labels != [] {
      assert forall i :: 0 <= i < |labels[1..]| ==> labels[1..][i] == labels[i + 1];
      StepOn(s, labels[0], w);
      StepCut(s, labels[0], w);
      NextPreserves(s, labels[0]);
      RunOn(Next(s, labels[0]), labels[1..], w);
    }
  }

  lemma Taken(s: Sys, w: WorkerId, oom: bool)
    requires w in s.pool.liveness
    ensures var s1 := Next(s, TakeDropped(w, oom));
            CutOff(s1, w) && P.OnWorker(s1.pool.inflight, w) == {} && w in s1.dropping
  {
    hide Next, Tasks;
    NextAtPool(s, TakeDropped(w, oom));
  }

  /** After both halves of a drop of a registered worker, with anything between
      them but another drop of it: the commands left in flight on the worker,
      which is registered no more, are exactly those registered on it between the
      halves. So, nothing being stranded elsewhere, the drop strands a command if
      and only if one was registered between its halves. */
  lemma StrandedExactly(before: seq<Label>, w: WorkerId, oom: bool, between: seq<Label>, now: int)
    requires w in Exec(INIT, before).pool.liveness
    requires forall i :: 0 <= i < |between| ==>
               !((between[i].TakeDropped? || between[i].ForgetDropped?) && between[i].w == w)
    ensures var registered := RegisteredOn(Next(Exec(INIT, before), TakeDropped(w, oom)), between, w);
            var s := Exec(INIT, before + [TakeDropped(w, oom)] + between);
            var p' := Exec(INIT, before + [TakeDropped(w, oom)] + between + [ForgetDropped(w, now)]).pool;
            && w !in p'.liveness && P.OnWorker(p'.inflight, w) == registered
            && (P.Owned(s.pool) ==> (P.Owned(p') <==> registered == {}))
  {
    hide Exec, Next, SysInv, P.OnWorker, P.Owned;
    var s0, take, forget := Exec(INIT, before), TakeDropped(w, oom), ForgetDropped(w, now);
    var s1 := Next(s0, take);
    Reachable(before);
    NextPreserves(s0, take);
    Taken(s0, w, oom);
    RunOn(s1, between, w);
    ExecConcat(INIT, before, [take]);
    LastOne(s0, take);
    ExecConcat(INIT, before + [take], between);
    var labels := before + [take] + between;
    ExecConcat(INIT, labels, [forget]);
    LastOne(Exec(INIT, labels), forget);
    StillDropping(s1, between, w);
    Forgotten(Exec(INIT, labels), w, now);
    if P.Owned(Exec(INIT, labels).pool) {
      D.ForgetStrands(labels, w, now);
    }
  }

  lemma Forgotten(s: Sys, w: WorkerId, now: int)
    requires w in s.dropping
    ensures Next(s, ForgetDropped(w, now)).pool.inflight == s.pool.inflight
    ensures w !in Next(s, ForgetDropped(w, now)).pool.liveness
  {
    hide Next, P.Retain;
    NextAtPool(s, ForgetDropped(w, now));
  }

  lemma StepDropping(s: Sys, l: Label, w: WorkerId)
    requires w in s.dropping && !(l.ForgetDropped? && l.w == w)
    ensures w in Next(s, l).dropping
  {
    hide Next, DoBeginClose, P.SessionReady, P.CompleteRequest, P.SessionClosed, Tasks, P.DropRest, P.DropTake,
         P.Settle, P.Create, P.Submit;
    NextAtPool(s, l);
    if PoolOnly(l) {
      PoolOnlyStep(s, l);
    } else if AtServer(l) || AtWorker(l) {
      R.LinkForward(s, l);
    } else if l.BeginClose? {
      if l.id in s.holders {
        O.HeldClose(s, l);
      } else {
        BeginCloseShape(s, l.id, l.gate, l.waiter);
      }
    }
  }

  lemma {:induction false} StillDropping(s: Sys, labels: seq<Label>, w: WorkerId)
    requires w in s.dropping
    requires forall i :: 0 <= i < |labels| ==>
               !((labels[i].TakeDropped? || labels[i].ForgetDropped?) && labels[i].w == w)
    ensures w in Exec(s, labels).dropping
    decreases |labels|
  {
    hide Next;
    if labels != [] {
      assert forall i :: 0 <= i < |labels[1..]| ==> labels[1..][i] == labels[i + 1];
      StepDropping(s, labels[0], w);
      StillDropping(Next(s, labels[0]), labels[1..], w);
    }
  }
}
