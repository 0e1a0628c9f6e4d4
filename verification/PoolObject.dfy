/** `WorkerPool` of shiitake-server/src/pool/mod.rs as an object: its fields are
    the maps and the queue behind the pool lock, and each method is one critical
    section, proved to do what the function of the same step in `ServerPool` says. */
module PoolObject {
  import opened Wrappers
  import opened Protocol
  import opened P = ServerPool

  function DropKey<K, V>(m: map<K, V>, k: K): map<K, V> { m - {k} }

  /** The state behind the pool lock; each method body is one critical section. */
  class WorkerPool {
    var idle: seq<Entry>
    var inflight: map<ExecId, Pending>
    var handles: map<ExecId, Handle>
    var liveness: map<WorkerId, string>
    var sessions: map<SessionId, Session>
    var workerSessions: map<WorkerId, SessionId>

    ghost function Model(): Pool
      reads this
    {
      Pool(idle, inflight, handles, liveness, sessions, workerSessions)
    }

    constructor ()
      ensures Model() == EMPTY
    {
      idle, inflight, handles, liveness, sessions, workerSessions := [], map[], map[], map[], map[], map[];
    }

    method RegisterWorker(w: WorkerId, profile: string, sink: nat) returns (ok: bool)
      modifies this
      ensures ok <==> P.Register(old(Model()), w, profile, sink).Some?
      ensures Model() == if ok then P.Register(old(Model()), w, profile, sink).value else old(Model())
      ensures ok <==> w !in old(liveness)
    {
      if w in liveness { return false; }
      idle := idle + [Entry(w, profile, sink)];
      liveness := liveness[w := profile];
      ok := true;
    }

    method CreateSession(profile: string, id: SessionId, inputs: Inputs,
                         now: int) returns (r: Result<Entry, SessionError>)
      modifies this
      ensures var spec := P.Create(old(Model()), profile, id, inputs, now);
              match r
              case Ok(e) => spec == Ok((Model(), e))
              case Err(error) => spec == Err(error) && Model() == old(Model())
    {
      if profile !in liveness.Values { return Err(UnknownProfile); }
      var pos := 0;
      while pos < |idle| && idle[pos].profile != profile
        invariant pos <= |idle|
        invariant forall j :: 0 <= j < pos ==> idle[j].profile != profile
      {
        pos := pos + 1;
      }
      FirstIs(idle, profile, pos);
      if pos == |idle| { return Err(Busy); }
      var worker := idle[pos];
      idle := RemoveAt(idle, pos);
      workerSessions := workerSessions[worker.workerId := id];
      sessions := sessions[id := NewSession(worker, inputs, now)];
      r := Ok(worker);
    }

    method OnSessionReady(w: WorkerId, id: SessionId, error: Option<string>, now: int)
      modifies this`sessions
      ensures Model() == P.SessionReady(old(Model()), w, id, error, now)
      ensures sessions.Keys == old(sessions).Keys
      ensures id in sessions && sessions[id].workerId == w && old(sessions)[id].state.Opening? ==>
                sessions[id].state == (if error.None? then Active else Failed) && !sessions[id].openWaiter
      ensures forall i ::
                i in sessions && !(i == id && sessions[i].workerId == w && old(sessions)[i].state.Opening?) ==>
                  sessions[i].state == old(sessions)[i].state
    {
      if id !in sessions { return; }
      var rec := sessions[id];
      if rec.workerId != w { return; }
      if rec.state.Opening? {
        rec := rec.(state := if error.Some? then Failed else Active);
        if error.Some? {
          rec := rec.(finishedAt := Some(now), inputs := CLEARED);
        }
      }
      sessions := sessions[id := rec.(openWaiter := false)];
    }

    method CreatedSnapshot(id: SessionId, now: int) returns (r: Result<SessionState, SessionError>)
      modifies this`sessions
      ensures var spec := P.Created(old(Model()), id, now);
              match r
              case Ok(state) => spec == Ok(Model()) && state.Active?
              case Err(error) => spec == Err(error) && Model() == old(Model())
      ensures r.Ok? <==>
                && id in old(sessions) && old(sessions)[id].state.Active? && old(sessions)[id].workerId in liveness
                && old(sessions)[id].workerId in workerSessions && workerSessions[old(sessions)[id].workerId] == id
      ensures r.Ok? ==> sessions == old(sessions)[id := old(sessions)[id].(lastActivityAt := now)]
    {
      if id !in sessions { return Err(NotFound); }
      var rec := sessions[id];
      if !rec.state.Active? || rec.workerId !in liveness || rec.workerId !in workerSessions
         || workerSessions[rec.workerId] != id
      {
        return Err(Disconnected);
      }
      sessions := sessions[id := rec.(lastActivityAt := now)];
      r := Ok(rec.state);
    }

    method SessionSnapshot(id: SessionId, now: int) returns (r: Option<SessionState>)
      modifies this`sessions
      ensures Model() == P.Touch(old(Model()), id, now)
      ensures sessions == if id in old(sessions) && old(sessions)[id].state.Active?
                          then old(sessions)[id := old(sessions)[id].(lastActivityAt := now)] else old(sessions)
      ensures r == if id in sessions then Some(sessions[id].state) else None
    {
      if id !in sessions { return None; }
      if sessions[id].state.Active? {
        sessions := sessions[id := sessions[id].(lastActivityAt := now)];
      }
      r := Some(sessions[id].state);
    }

    /** The first look of a submitter, under the session's send lock. */
    method CheckSession(id: SessionId, mode: Mode) returns (r: Result<(WorkerId, nat, Inputs), SessionError>)
      ensures if r.Ok?
              then Refusal(Model(), id, mode).None?
                   && r.value == (sessions[id].workerId, sessions[id].sink, sessions[id].inputs)
              else Refusal(Model(), id, mode) == Some(r.error)
    {
      if id !in sessions { return Err(NotFound); }
      var rec := sessions[id];
      if !rec.state.Active? { return Err(NotActive); }
      if mode.Stateful? && rec.terminal.Some? { return Err(TerminalBusy); }
      r := Ok((rec.workerId, rec.sink, rec.inputs));
    }

    method RegisterCommand(id: SessionId, rid: ExecId, mode: Mode, worker: WorkerId, sink: nat,
                           now: int) returns (error: Option<SessionError>)
      modifies this
      ensures var spec := P.Submit(old(Model()), id, rid, mode, worker, sink, now);
              if error.None? then spec == Ok(Model()) else spec == Err(error.value) && Model() == old(Model())
      ensures error == if id !in old(sessions) then Some(NotFound)
                       else if old(sessions)[id].state != Active then Some(NotActive)
                       else if mode == Stateful && old(sessions)[id].terminal != None then Some(TerminalBusy)
                       else None
      ensures error.None? ==>
                && rid in inflight && inflight[rid] == Pending(worker, sink, id, mode)
                && rid in handles && handles[rid] == Handle(id, worker, FRESH)
                && id in sessions && sessions[id].lastActivityAt == now
                && sessions[id].statefulCount == old(sessions)[id].statefulCount + (if mode == Stateful then 1 else 0)
    {
      if id !in sessions { return Some(NotFound); }
      if !sessions[id].state.Active? { return Some(NotActive); }
      if mode.Stateful? && sessions[id].terminal.Some? { return Some(TerminalBusy); }
      inflight := inflight[rid := Pending(worker, sink, id, mode)];
      handles := handles[rid := Handle(id, worker, FRESH)];
      if mode.Stateful? {
        sessions := sessions[id := sessions[id].(statefulCount := sessions[id].statefulCount + 1)];
      }
      sessions := sessions[id := sessions[id].(lastActivityAt := now)];
      assert sessions == old(sessions)[id := sessions[id]];
      error := None;
    }

    method OnResult(rid: ExecId, now: int) returns (known: bool)
      modifies this`inflight, this`sessions
      ensures Model() == P.CompleteRequest(old(Model()), rid, now)
      ensures inflight == old(inflight) - {rid} && sessions.Keys == old(sessions).Keys
      ensures forall id :: id in sessions ==>
                var rec := old(sessions)[id];
                sessions[id] == if rid !in old(inflight) || old(inflight)[rid].sessionId != id then rec
                                else if old(inflight)[rid].mode == Stateful && rec.statefulCount > 0
                                then rec.(lastActivityAt := now, statefulCount := rec.statefulCount - 1)
                                else rec.(lastActivityAt := now)
      ensures known <==> rid in handles
    {
      if rid in inflight {
        var pending := inflight[rid];
        inflight := DropKey(inflight, rid);
        if pending.sessionId in sessions {
          var rec := sessions[pending.sessionId].(lastActivityAt := now);
          if pending.mode.Stateful? && rec.statefulCount > 0 {
            rec := rec.(statefulCount := rec.statefulCount - 1);
          }
          sessions := sessions[pending.sessionId := rec];
        }
      }
      known := rid in handles;
    }

    method AttachTerminal(id: SessionId, terminal: nat, now: int) returns (error: Option<SessionError>)
      modifies this`sessions
      ensures var spec := P.Attach(old(Model()), id, terminal, now);
              if error.None? then spec == Ok(Model()) else spec == Err(error.value) && Model() == old(Model())
      ensures error.None? <==>
                && id in old(sessions) && old(sessions)[id].state == Active
                && old(sessions)[id].terminal == None && old(sessions)[id].statefulCount == 0
      ensures error.None? ==>
                sessions == old(sessions)[id := old(sessions)[id].(terminal := Some(terminal), lastActivityAt := now)]
    {
      if id !in sessions { return Some(NotFound); }
      var rec := sessions[id];
      if !rec.state.Active? { return Some(NotActive); }
      if rec.terminal.Some? { return Some(TerminalBusy); }
      if rec.statefulCount > 0 { return Some(TerminalBusy); }
      sessions := sessions[id := rec.(terminal := Some(terminal), lastActivityAt := now)];
      error := None;
    }

    method DetachTerminal(id: SessionId, terminal: nat, now: int)
      modifies this`sessions
      ensures Model() == P.Detach(old(Model()), id, terminal, now)
      ensures sessions == if id in old(sessions) && old(sessions)[id].terminal == Some(terminal)
                          then old(sessions)[id := old(sessions)[id].(terminal := None, lastActivityAt := now)]
                          else old(sessions)
    {
      if id in sessions && sessions[id].terminal == Some(terminal) {
        sessions := sessions[id := sessions[id].(terminal := None, lastActivityAt := now)];
      }
    }

    /** The section of `close_session_inner` under the send lock. */
    method CloseSession(id: SessionId, gate: Option<Gate>, waiter: nat) returns (r: Result<CloseStep, SessionError>)
      modifies this`sessions
      ensures var spec := P.Close(old(Model()), id, gate, waiter);
              match r
              case Ok(step) => spec == Ok((Model(), step))
              case Err(error) => spec == Err(error) && Model() == old(Model())
      ensures id !in sessions ==> r == Err(NotFound) && sessions == old(sessions)
      ensures id in sessions ==>
                var rec := old(sessions)[id];
                if || rec.state == Closed || rec.state == Failed
                   || (gate.Some?
                       && (|| rec.state != Active || rec.terminal != None
                           || (exists rid :: rid in inflight && inflight[rid].sessionId == id)
                           || gate.value.now - rec.lastActivityAt <= gate.value.ttl))
                then r == Ok(Done) && sessions == old(sessions)
                else r == Ok(Wait(rec.state != Closing))
                     && sessions == old(sessions)[id := rec.(state := Closing, closed := rec.closed + [waiter])]
    {
      if id !in sessions { return Err(NotFound); }
      var rec := sessions[id];
      if gate.Some? {
        var used := exists rid | rid in inflight :: inflight[rid].sessionId == id;
        UsedIs(inflight, id);
        var stillIdle := rec.state.Active? && rec.terminal.None? && !used
                         && Elapsed(gate.value.now, rec.lastActivityAt) > gate.value.ttl;
        if !stillIdle { return Ok(Done); }
      }
      if rec.state.Closed? || rec.state.Failed? { return Ok(Done); }
      var sendClose := !rec.state.Closing?;
      sessions := sessions[id := rec.(state := Closing, closed := rec.closed + [waiter])];
      r := Ok(Wait(sendClose));
    }

    method OnSessionClosed(w: WorkerId, id: SessionId, error: Option<string>, reusable: bool, now: int)
      returns (r: Option<(set<ExecId>, ExitCause, seq<nat>)>)
      modifies this
      ensures var spec := P.SessionClosed(old(Model()), w, id, error, reusable, now);
              if r.None? then spec.None? && Model() == old(Model())
              else spec == Some(Retired(Model(), r.value.0, r.value.1, r.value.2))
      ensures r.Some? <==> id in old(sessions) && old(sessions)[id].workerId == w
      ensures r.Some? ==>
                && (forall rid :: rid in r.value.0 <==> rid in old(inflight) && old(inflight)[rid].sessionId == id)
                && r.value.1 == (if old(sessions)[id].state == Closing && error == None
                                 then CancelledCause else WorkerError)
                && r.value.2 == old(sessions)[id].closed
                && id in sessions && sessions[id].state == (if error == None then Closed else Failed)
                && sessions[id].finishedAt == Some(now) && sessions[id].terminal == None && w !in workerSessions
                && idle == old(idle) + (if reusable && w in liveness
                                        then [Entry(w, sessions[id].profile, sessions[id].sink)] else [])
    {
      if id !in sessions { return None; }
      var rec := sessions[id];
      if rec.workerId != w { return None; }
      var cause := if rec.state.Closing? && error.None? then CancelledCause else WorkerError;
      var waiters := rec.closed;
      sessions := sessions[id := rec.(state := if error.Some? then Failed else Closed, finishedAt := Some(now),
                                      inputs := CLEARED, terminal := None, openWaiter := false, closed := [])];
      workerSessions := DropKey(workerSessions, w);
      if reusable && w in liveness {
        idle := idle + [Entry(w, rec.profile, rec.sink)];
      }
      var pending := RemoveCommands(set rid | rid in inflight && inflight[rid].sessionId == id);
      r := Some((pending, cause, waiters));
    }

    /** Take commands out of `inflight`, one by one. */
    method RemoveCommands(ids: set<ExecId>) returns (taken: set<ExecId>)
      requires ids <= inflight.Keys
      modifies this`inflight
      ensures inflight == old(inflight) - ids && taken == ids
    {
      taken := {};
      var left := ids;
      while left != {}
        invariant left !! taken && left + taken == ids
        invariant inflight == old(inflight) - taken
        decreases left
      {
        var rid :| rid in left;
        left := left - {rid};
        inflight := DropKey(inflight, rid);
        taken := taken + {rid};
      }
    }

    /** First critical section of a drop. */
    method TakeCommands(w: WorkerId) returns (taken: set<ExecId>)
      modifies this`inflight
      ensures (Model(), taken) == P.DropTake(old(Model()), w)
    {
      taken := RemoveCommands(set rid | rid in inflight && inflight[rid].workerId == w);
    }

    /** Second critical section of a drop. */
    method ForgetWorker(w: WorkerId, now: int) returns (waiters: seq<nat>)
      modifies this
      ensures (Model(), waiters) == P.DropRest(old(Model()), w, now)
    {
      waiters := [];
      var kept: seq<Entry>, i := [], 0;
      while i < |idle|
        invariant i <= |idle|
        invariant Retain(idle, w) == kept + Retain(idle[i..], w)
      {
        if idle[i].workerId != w { kept := kept + [idle[i]]; }
        i := i + 1;
      }
      assert kept + [] == kept;
      idle := kept;
      if w in workerSessions {
        var id := workerSessions[w];
        if id in sessions {
          waiters := sessions[id].closed;
          sessions := sessions[id := sessions[id].(state := Failed, finishedAt := Some(now), inputs := CLEARED,
                                                   terminal := None, openWaiter := false, closed := [])];
        }
      }
      workerSessions := DropKey(workerSessions, w);
      liveness := DropKey(liveness, w);
    }

    /** What every finalizer does to a handle it finds: nothing unless it is running. */
    method SettleHandle(rid: ExecId, v: Verdict, now: int)
      modifies this`handles
      ensures Model() == P.Finalize(old(Model()), rid, v, now)
      ensures handles.Keys == old(handles).Keys
      ensures rid in handles && old(handles)[rid].runtime.status == Running ==>
                && Reads(old(handles)[rid].runtime, v, now, handles[rid].runtime)
                && handles[rid].runtime.cancelRequested == old(handles)[rid].runtime.cancelRequested
                && handles[rid].runtime.spoolFailed == old(handles)[rid].runtime.spoolFailed
      ensures forall i :: i in handles && (i != rid || old(handles)[i].runtime.status != Running) ==>
                handles[i] == old(handles)[i]
    {
      if rid !in handles { return; }
      var rt := handles[rid].runtime;
      if !rt.status.Running? {
        assert handles[rid := handles[rid].(runtime := rt)] == handles;
        return;
      }
      rt := rt.(finishedAt := Some(now));
      match v {
        case FromResult(result) =>
          var (status, cause) := if rt.spoolFailed then (Error, OutputError) else Classify(result);
          rt := rt.(exitCode := result.exitCode, exitSignal := result.exitSignal, cancelled := result.cancelled,
                    status := status, exitCause := Some(cause));
        case FromClose(cause) =>
          rt := rt.(status := Error, exitCause := Some(cause), cancelled := cause.CancelledCause?);
        case FromDrop(oom) =>
          rt := rt.(status := if oom then Oomkilled else Error,
                    exitCause := Some(if oom then OomContainer else WorkerDied));
          if oom { rt := rt.(exitSignal := Some(SIGKILL)); }
      }
      handles := handles[rid := handles[rid].(runtime := rt)];
    }

    /** The first cancel of a running command marks it and has a Cancel frame sent; later ones do nothing. */
    method RequestCancel(rid: ExecId) returns (send: bool)
      modifies this`handles
      ensures Model() == CancelRequest(old(Model()), rid)
      ensures send <==>
                rid in old(handles) && old(handles)[rid].runtime.status.Running?
                && !old(handles)[rid].runtime.cancelRequested
      ensures handles == if send
                         then old(handles)[rid := old(handles)[rid].(
                                runtime := old(handles)[rid].runtime.(cancelRequested := true))]
                         else old(handles)
    {
      if rid !in handles { return false; }
      var rt := handles[rid].runtime;
      if !rt.status.Running? || rt.cancelRequested {
        assert handles[rid := handles[rid].(runtime := rt)] == handles;
        return false;
      }
      handles := handles[rid := handles[rid].(runtime := rt.(cancelRequested := true))];
      send := true;
    }

    method ForgetFinished(gate: Gate)
      modifies this`sessions
      ensures Model() == P.Forget(old(Model()), gate)
      ensures forall id :: id in sessions <==>
                && id in old(sessions)
                && (old(sessions)[id].finishedAt == None
                    || gate.now - old(sessions)[id].finishedAt.value <= gate.ttl)
      ensures forall id :: id in sessions ==> sessions[id] == old(sessions)[id]
    {
      sessions := map id | id in sessions
                           && (sessions[id].finishedAt.Some? ==>
                                 Elapsed(gate.now, sessions[id].finishedAt.value) <= gate.ttl)
                      :: sessions[id];
    }

    /** The idle and busy counts of /health and /ready. In the states of the
        service they are disjoint and never exceed the registered workers. */
    method Snapshot() returns (counts: (nat, nat))
      ensures counts == P.Snapshot(Model())
      ensures PoolInv(Model()) && Owned(Model()) ==>
                && counts.0 + counts.1 <= |liveness| && counts.1 == |workerSessions|
                && counts.0 == |IdleSet(idle)|
    {
      var busy := set rid | rid in inflight :: inflight[rid].workerId;
      busy := busy + workerSessions.Keys;
      counts := (|idle|, |busy|);
      if PoolInv(Model()) && Owned(Model()) {
        SnapshotBound(Model());
      }
    }
  }

  lemma {:induction false} FirstIs(idle: seq<Entry>, profile: string, pos: nat)
    requires pos <= |idle| && (forall j :: 0 <= j < pos ==> idle[j].profile != profile)
    requires pos < |idle| ==> idle[pos].profile == profile
    ensures FirstOf(idle, profile) == pos
  {
    if pos > 0 {
      assert forall j :: 0 <= j < pos - 1 ==> idle[1..][j] == idle[j + 1];
      FirstIs(idle[1..], profile, pos - 1);
    }
  }

  lemma UsedIs(inflight: map<ExecId, Pending>, id: SessionId)
    ensures (exists rid :: rid in inflight && inflight[rid].sessionId == id) <==> InflightOf(inflight, id) != map[]
  {
    if rid :| rid in inflight && inflight[rid].sessionId == id {
      assert rid in InflightOf(inflight, id);
    }
  }
}
