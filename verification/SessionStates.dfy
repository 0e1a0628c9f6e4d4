/** The life of a session at the server: in every run, each change of a session's
    state has one of a few causes, and each cause has its effect. */
module SessionStates {
  import opened Wrappers
  import opened Protocol
  import P = ServerPool
  import opened System
  import opened Composition
  import G = Guarantees
  import A = Activity

  /** The next frame the server reads from a worker is this worker's own report on its session. */
  predicate Tells(s: Sys, w: WorkerId, id: SessionId) {
    && w in s.conns && s.conns[w].up != []
    && (s.conns[w].up[0].SessionReady? || s.conns[w].up[0].SessionClosed?) && s.conns[w].up[0].sessionId == id
    && id in s.pool.sessions && s.pool.sessions[id].workerId == w
  }

  /** Someone takes the send lock and closes the session, the sweeper only if it is unused. */
  ghost predicate Closes(s: Sys, l: Label, id: SessionId)
    requires id in s.pool.sessions
  {
    && l.BeginClose? && l.id == id && id !in s.holders
    && (l.gate.Some? ==>
          var rec := s.pool.sessions[id];
          && rec.state == P.Active && rec.terminal == None && !G.InUse(s, id)
          && l.gate.value.now - rec.lastActivityAt > l.gate.value.ttl)
  }

  /** The state a known session is in after a step. An acknowledgement opens it or
      fails it if it was opening; a close starts closing it unless it is over; its
      worker's report ends it, and so does the drop of its worker. */
  ghost function StateAfter(s: Sys, l: Label, id: SessionId): P.SessionState
    requires id in s.pool.sessions
  {
    var state := s.pool.sessions[id].state;
    if l.Deliver? && Tells(s, l.w, id) then
      var f := s.conns[l.w].up[0];
      if f.SessionClosed? then (if f.error == None then P.Closed else P.Failed)
      else if state == P.Opening then (if f.error == None then P.Active else P.Failed)
      else state
    else if Closes(s, l, id) && state != P.Closed && state != P.Failed then P.Closing
    else if l.ForgetDropped? && l.w in s.dropping && l.w in s.pool.workerSessions && s.pool.workerSessions[l.w] == id
    then P.Failed
    else state
  }

  ghost predicate StateMoved(s: Sys, l: Label, id: SessionId) {
    id in Next(s, l).pool.sessions ==>
      Next(s, l).pool.sessions[id].state == if id in s.pool.sessions then StateAfter(s, l, id) else P.Opening
  }

  lemma CreateState(s: Sys, l: Label, id: SessionId)
    requires l.CreateSession? && s.pool.sessions.Keys <= s.usedSessions
    ensures StateMoved(s, l, id)
  {
    hide Next;
    NextAtPool(s, l);
    if l.id !in s.usedSessions && P.Create(s.pool, l.profile, l.id, l.inputs, l.now).Ok? {
      CreateShape(s, l.id, l.profile, l.inputs, l.now);
    }
  }

  /** Steps that leave the state alone. */
  lemma QuietState(s: Sys, l: Label, id: SessionId)
    requires !l.Deliver? && !l.BeginClose? && !l.ForgetDropped?
    requires id in Next(s, l).pool.sessions ==>
               id in s.pool.sessions && Next(s, l).pool.sessions[id].state == s.pool.sessions[id].state
    ensures StateMoved(s, l, id)
  {
    hide Next;
  }

  lemma PoolState(p: P.Pool, l: Label, id: SessionId)
    requires PoolOnly(l)
    ensures id in PoolStep(p, l).sessions ==>
              id in p.sessions && PoolStep(p, l).sessions[id].state == p.sessions[id].state
  {
  }

  lemma SubmitState(p: P.Pool, i: SessionId, rid: ExecId, mode: Mode, w: WorkerId, sink: nat, now: int, id: SessionId)
    requires P.Submit(p, i, rid, mode, w, sink, now).Ok?
    ensures var p' := P.Submit(p, i, rid, mode, w, sink, now).value;
            id in p'.sessions ==> id in p.sessions && p'.sessions[id].state == p.sessions[id].state
  {
  }

  lemma RegisterState(s: Sys, l: Label, id: SessionId)
    requires l.RegisterCommand?
    ensures StateMoved(s, l, id)
  {
    hide Next, StateAfter, P.Submit;
    NextAtPool(s, l);
    if l.id in s.holders && s.holders[l.id].Submitting? && s.holders[l.id].execute.requestId !in s.usedCommands {
      var h := s.holders[l.id];
      if P.Submit(s.pool, l.id, h.execute.requestId, h.mode, h.worker, h.sink, l.now).Ok? {
        SubmitState(s.pool, l.id, h.execute.requestId, h.mode, h.worker, h.sink, l.now, id);
      }
    }
    QuietState(s, l, id);
  }

  lemma CloseState(s: Sys, l: Label, id: SessionId)
    requires l.BeginClose?
    ensures StateMoved(s, l, id)
  {
    hide Next, DoBeginClose, P.Close, P.InflightOf, G.InUse;
    NextAtPool(s, l);
    ClosePool(s, l);
    if l.id !in s.holders {
      G.UnusedIs(s, l.id);
      CloseResult(s.pool, l.id, l.gate, l.waiter);
    }
  }

  lemma ClosePool(s: Sys, l: Label)
    requires l.BeginClose?
    ensures var r := P.Close(s.pool, l.id, l.gate, l.waiter);
            DoBeginClose(s, l.id, l.gate, l.waiter).pool
            == if l.id in s.holders || r.Err? then s.pool else r.value.0
  {
    hide P.Close;
  }

  lemma CloseResult(p: P.Pool, id: SessionId, gate: Option<P.Gate>, waiter: nat)
    ensures var r := P.Close(p, id, gate, waiter);
            if || id !in p.sessions || p.sessions[id].state == P.Closed || p.sessions[id].state == P.Failed
               || (gate.Some?
                   && !(&& p.sessions[id].state == P.Active && p.sessions[id].terminal == None
                        && P.InflightOf(p.inflight, id) == map[]
                        && gate.value.now - p.sessions[id].lastActivityAt > gate.value.ttl))
            then r.Err? || r.value.0 == p
            else r.Ok? && r.value.0.sessions.Keys == p.sessions.Keys && r.value.0.sessions[id].state == P.Closing
                 && forall i :: i in p.sessions && i != id ==> r.value.0.sessions[i] == p.sessions[i]
  {
    hide P.InflightOf;
  }

  lemma ReadyState(p: P.Pool, w: WorkerId, i: SessionId, error: Option<string>, now: int, id: SessionId)
    ensures var p' := P.SessionReady(p, w, i, error, now);
            && p'.sessions.Keys == p.sessions.Keys
            && (id in p.sessions ==>
                  p'.sessions[id].state
                  == if id == i && p.sessions[id].workerId == w && p.sessions[id].state == P.Opening
                     then (if error == None then P.Active else P.Failed) else p.sessions[id].state)
  {
  }

  lemma EndedState(p: P.Pool, w: WorkerId, i: SessionId, error: Option<string>, reusable: bool, now: int, id: SessionId)
    ensures var r := P.SessionClosed(p, w, i, error, reusable, now);
            if i in p.sessions && p.sessions[i].workerId == w
            then && r.Some? && r.value.pool.sessions.Keys == p.sessions.Keys
                 && (id in p.sessions ==>
                       r.value.pool.sessions[id].state
                       == if id == i then (if error == None then P.Closed else P.Failed) else p.sessions[id].state)
            else r.None?
  {
    hide P.InflightOf;
  }

  lemma ResultState(p: P.Pool, rid: ExecId, now: int, id: SessionId)
    ensures var p' := P.CompleteRequest(p, rid, now);
            && p'.sessions.Keys == p.sessions.Keys
            && (id in p.sessions ==> p'.sessions[id].state == p.sessions[id].state)
  {
  }

  lemma DeliverState(s: Sys, l: Label, id: SessionId)
    requires l.Deliver?
    ensures StateMoved(s, l, id)
  {
    hide Next, Tasks, P.SessionReady, P.CompleteRequest, P.SessionClosed;
    NextAtPool(s, l);
    if l.w in s.conns && s.conns[l.w].up != [] {
      var f := s.conns[l.w].up[0];
      if f.SessionReady? {
        ReadyState(s.pool, l.w, f.sessionId, f.error, l.now, id);
      } else if f.ResultOf? {
        ResultState(s.pool, f.result.requestId, l.now, id);
      } else if f.SessionClosed? {
        EndedState(s.pool, l.w, f.sessionId, f.error, f.reusable, l.now, id);
      }
    }
  }

  lemma DropState(s: Sys, l: Label, id: SessionId)
    requires l.ForgetDropped?
    ensures StateMoved(s, l, id)
  {
    hide Next, P.Retain;
    NextAtPool(s, l);
  }

  /** In every run and for every step: a session new at the server is Opening, and
      a known one that is not forgotten is in exactly the state that step puts it in. */
  lemma StateDiagram(labels: seq<Label>, l: Label, id: SessionId)
    ensures var s, s' := Exec(INIT, labels), Next(Exec(INIT, labels), l);
            id in s'.pool.sessions ==>
              s'.pool.sessions[id].state == if id in s.pool.sessions then StateAfter(s, l, id) else P.Opening
  {
    hide Exec, Next, StateAfter, PoolStep, A.Uses;
    var s := Exec(INIT, labels);
    A.Known(labels);
    match l
    case CreateSession(_, _, _, _) => CreateState(s, l, id);
    case RegisterCommand(_, _) => RegisterState(s, l, id);
    case BeginClose(_, _, _) => CloseState(s, l, id);
    case Deliver(_, _) => DeliverState(s, l, id);
    case ForgetDropped(_, _) => DropState(s, l, id);
    case _ =>
      if PoolOnly(l) {
        PoolOnlyStep(s, l);
        PoolState(s.pool, l, id);
      } else {
        A.OtherRecords(s, l);
      }
      QuietState(s, l, id);
  }
}
