/** The server's worker pool, `WorkerPool` in shiitake-server/src/pool/mod.rs.

    `Pool` is the state behind the pool lock. Each function below is one critical
    section of one operation: it takes the state found when the lock is taken and
    gives the state left when it is released. */
module ServerPool {
  import opened Wrappers
  import opened Protocol

  datatype SessionState = Opening | Active | Closing | Closed | Failed

  /** Opening, Active and Closing sessions hold a worker. */
  predicate Holding(state: SessionState) { state.Opening? || state.Active? || state.Closing? }

  /** `sink` names the connection a worker registered with. */
  datatype Entry = Entry(workerId: WorkerId, profile: string, sink: nat)

  datatype Pending = Pending(workerId: WorkerId, sink: nat, sessionId: SessionId, mode: Mode)

  /** Request-controlled input, released as soon as the session can run nothing more. */
  datatype Inputs = Inputs(workingDir: string, env: map<string, string>, dropTo: Option<DropTo>)

  const CLEARED := Inputs("", map[], None)

  /** `openWaiter` says whether the creator still waits for the open acknowledgement;
      `closed` are the waiting closers and `terminal` the attached terminal, each
      named by a number. */
  datatype Session = Session(
    workerId: WorkerId,
    profile: string,
    sink: nat,
    state: SessionState,
    lastActivityAt: int,
    finishedAt: Option<int>,
    openWaiter: bool,
    closed: seq<nat>,
    terminal: Option<nat>,
    inputs: Inputs,
    statefulCount: nat)

  datatype HandleStatus = Running | Completed | Oomkilled | Error

  datatype ExitCause = Normal | Signal | OomContainer | WorkerDied | WorkerError | OutputError | CancelledCause

  datatype Runtime = Runtime(
    status: HandleStatus,
    finishedAt: Option<int>,
    exitCode: Option<int>,
    exitSignal: Option<int>,
    exitCause: Option<ExitCause>,
    cancelRequested: bool,
    cancelled: bool,
    spoolFailed: bool)

  datatype Handle = Handle(sessionId: SessionId, workerId: WorkerId, runtime: Runtime)

  datatype Pool = Pool(
    idle: seq<Entry>,
    inflight: map<ExecId, Pending>,
    handles: map<ExecId, Handle>,
    liveness: map<WorkerId, string>,
    sessions: map<SessionId, Session>,
    workerSessions: map<WorkerId, SessionId>)

  datatype SessionError =
    | UnknownProfile
    | Busy
    | NotFound
    | NotActive
    | TerminalBusy
    | Disconnected

  const EMPTY := Pool([], map[], map[], map[], map[], map[])

  // ------------------------------------------------------------ registration

  /** A worker says Hello. A worker id that is still registered is refused. */
  function Register(p: Pool, w: WorkerId, profile: string, sink: nat): Option<Pool> {
    if w in p.liveness then None
    else Some(p.(idle := p.idle + [Entry(w, profile, sink)], liveness := p.liveness[w := profile]))
  }

  // ---------------------------------------------------------------- creation

  /** First position of a profile in the idle queue, or the queue's length. */
  function FirstOf(idle: seq<Entry>, profile: string): (i: nat)
    ensures i <= |idle|
    ensures i < |idle| ==> idle[i].profile == profile
    ensures forall j :: 0 <= j < i ==> idle[j].profile != profile
  {
    if idle == [] then 0
    else if idle[0].profile == profile then 0
    else
      var i := FirstOf(idle[1..], profile);
      assert forall j :: 1 <= j < i + 1 ==> idle[j] == idle[1..][j - 1];
      i + 1
  }

  ghost predicate IsWithout(idle: seq<Entry>, i: nat, idle': seq<Entry>) {
    && i < |idle| && |idle'| == |idle| - 1
    && (forall j :: 0 <= j < i ==> idle'[j] == idle[j])
    && (forall j :: i <= j < |idle'| ==> idle'[j] == idle[j + 1])
  }

  function RemoveAt(idle: seq<Entry>, i: nat): (idle': seq<Entry>)
    requires i < |idle|
    ensures IsWithout(idle, i, idle')
  {
    idle[..i] + idle[i + 1..]
  }

  function NewSession(e: Entry, inputs: Inputs, now: int): Session {
    Session(e.workerId, e.profile, e.sink, Opening, now, None, true, [], None, inputs, 0)
  }

  /** Reserve the first idle worker of the profile. */
  function Create(p: Pool, profile: string, id: SessionId, inputs: Inputs,
                  now: int): Result<(Pool, Entry), SessionError> {
    if profile !in p.liveness.Values then Err(UnknownProfile)
    else
      var i := FirstOf(p.idle, profile);
      if i == |p.idle| then Err(Busy)
      else
        var e := p.idle[i];
        Ok((p.(idle := RemoveAt(p.idle, i),
               workerSessions := p.workerSessions[e.workerId := id],
               sessions := p.sessions[id := NewSession(e, inputs, now)]), e))
  }

  /** The worker's open acknowledgement. */
  function SessionReady(p: Pool, w: WorkerId, id: SessionId, error: Option<string>, now: int): Pool {
    if id !in p.sessions || p.sessions[id].workerId != w then p
    else
      var rec := p.sessions[id];
      var rec' := if !rec.state.Opening? then rec
                  else if error.Some? then rec.(state := Failed, finishedAt := Some(now), inputs := CLEARED)
                  else rec.(state := Active);
      p.(sessions := p.sessions[id := rec'.(openWaiter := false)])
  }

  /** The creator's reply: only for a session that is still active on a worker that is still there. */
  function Created(p: Pool, id: SessionId, now: int): Result<Pool, SessionError> {
    if id !in p.sessions then Err(NotFound)
    else
      var rec := p.sessions[id];
      if !rec.state.Active? || rec.workerId !in p.liveness || rec.workerId !in p.workerSessions
         || p.workerSessions[rec.workerId] != id
      then Err(Disconnected)
      else Ok(p.(sessions := p.sessions[id := rec.(lastActivityAt := now)]))
  }

  /** A status request counts as activity while the session is active. */
  function Touch(p: Pool, id: SessionId, now: int): Pool {
    if id in p.sessions && p.sessions[id].state.Active?
    then p.(sessions := p.sessions[id := p.sessions[id].(lastActivityAt := now)])
    else p
  }

  // -------------------------------------------------------------- submission

  /** Why a command cannot be registered now, if it cannot. */
  function Refusal(p: Pool, id: SessionId, mode: Mode): Option<SessionError> {
    if id !in p.sessions then Some(NotFound)
    else if !p.sessions[id].state.Active? then Some(NotActive)
    else if mode.Stateful? && p.sessions[id].terminal.Some? then Some(TerminalBusy)
    else None
  }

  const FRESH := Runtime(Running, None, None, None, None, false, false, false)

  /** The critical section that registers a command. `worker` and `sink` were
      read when the send lock was taken. */
  function Submit(p: Pool, id: SessionId, rid: ExecId, mode: Mode, worker: WorkerId, sink: nat,
                  now: int): Result<Pool, SessionError> {
    var refusal := Refusal(p, id, mode);
    if refusal.Some? then Err(refusal.value)
    else
      var rec := p.sessions[id];
      var rec' := rec.(statefulCount := rec.statefulCount + (if mode.Stateful? then 1 else 0), lastActivityAt := now);
      Ok(p.(inflight := p.inflight[rid := Pending(worker, sink, id, mode)],
            handles := p.handles[rid := Handle(id, worker, FRESH)],
            sessions := p.sessions[id := rec']))
  }

  /** A worker's Result: free the command's slot. The handle is settled later, under its own lock. */
  function CompleteRequest(p: Pool, rid: ExecId, now: int): Pool {
    if rid !in p.inflight then p
    else
      var pending := p.inflight[rid];
      var p' := p.(inflight := p.inflight - {rid});
      if pending.sessionId !in p.sessions then p'
      else
        var rec := p.sessions[pending.sessionId];
        var count := if pending.mode.Stateful? && rec.statefulCount > 0
                     then rec.statefulCount - 1 else rec.statefulCount;
        p'.(sessions := p.sessions[pending.sessionId := rec.(statefulCount := count, lastActivityAt := now)])
  }

  // ---------------------------------------------------------------- terminals

  function Attach(p: Pool, id: SessionId, terminal: nat, now: int): Result<Pool, SessionError> {
    if id !in p.sessions then Err(NotFound)
    else
      var rec := p.sessions[id];
      if !rec.state.Active? then Err(NotActive)
      else if rec.terminal.Some? || rec.statefulCount > 0 then Err(TerminalBusy)
      else Ok(p.(sessions := p.sessions[id := rec.(terminal := Some(terminal), lastActivityAt := now)]))
  }

  /** Detach this terminal, unless another one has been attached since. */
  function Detach(p: Pool, id: SessionId, terminal: nat, now: int): Pool {
    if id in p.sessions && p.sessions[id].terminal == Some(terminal)
    then p.(sessions := p.sessions[id := p.sessions[id].(terminal := None, lastActivityAt := now)])
    else p
  }

  // ------------------------------------------------------------------ closing

  datatype Gate = Gate(now: int, ttl: nat)

  /** `now.duration_since(then).unwrap_or_default()` */
  function Elapsed(now: int, before: int): nat { if now >= before then now - before else 0 }

  function InflightOf(inflight: map<ExecId, Pending>, id: SessionId): map<ExecId, Mode> {
    map rid | rid in inflight && inflight[rid].sessionId == id :: inflight[rid].mode
  }

  /** The sweeper's test: nothing attached, nothing running, no activity within the limit. */
  predicate Expired(p: Pool, rec: Session, id: SessionId, gate: Gate) {
    && rec.state.Active?
    && rec.terminal.None?
    && InflightOf(p.inflight, id) == map[]
    && Elapsed(gate.now, rec.lastActivityAt) > gate.ttl
  }

  /** What a closer does next: nothing, or wait after sending `SessionClose` (`send`) or behind another closer. */
  datatype CloseStep = Done | Wait(send: bool)

  /** The critical section that moves a session to Closing. The sweeper passes a gate. */
  function Close(p: Pool, id: SessionId, gate: Option<Gate>, waiter: nat): Result<(Pool, CloseStep), SessionError> {
    if id !in p.sessions then Err(NotFound)
    else
      var rec := p.sessions[id];
      if gate.Some? && !Expired(p, rec, id, gate.value) then Ok((p, Done))
      else if rec.state.Closed? || rec.state.Failed? then Ok((p, Done))
      else Ok((p.(sessions := p.sessions[id := rec.(state := Closing, closed := rec.closed + [waiter])]),
               Wait(!rec.state.Closing?)))
  }

  /** What `session_closed` takes out of the state: the commands it must settle
      and how, and the closers it must wake. */
  datatype Retired = Retired(pool: Pool, pending: set<ExecId>, cause: ExitCause, waiters: seq<nat>)

  function Ended(rec: Session, failed: bool, now: int): Session {
    rec.(state := if failed then Failed else Closed, finishedAt := Some(now), inputs := CLEARED,
         terminal := None, openWaiter := false, closed := [])
  }

  /** The worker's report that a session is over. */
  function SessionClosed(p: Pool, w: WorkerId, id: SessionId, error: Option<string>, reusable: bool,
                         now: int): Option<Retired> {
    if id !in p.sessions || p.sessions[id].workerId != w then None
    else
      var rec := p.sessions[id];
      var cause := if rec.state.Closing? && error.None? then CancelledCause else WorkerError;
      var pending := InflightOf(p.inflight, id).Keys;
      Some(Retired(
             p.(sessions := p.sessions[id := Ended(rec, error.Some?, now)],
                workerSessions := p.workerSessions - {w},
                idle := if reusable && w in p.liveness then p.idle + [Entry(w, rec.profile, rec.sink)] else p.idle,
                inflight := p.inflight - pending),
             pending, cause, rec.closed))
  }

  // -------------------------------------------------------------- worker drop

  function OnWorker(inflight: map<ExecId, Pending>, w: WorkerId): set<ExecId> {
    set rid | rid in inflight && inflight[rid].workerId == w
  }

  /** First critical section of a worker drop: take the worker's commands. */
  function DropTake(p: Pool, w: WorkerId): (Pool, set<ExecId>) {
    (p.(inflight := p.inflight - OnWorker(p.inflight, w)), OnWorker(p.inflight, w))
  }

  function Retain(idle: seq<Entry>, w: WorkerId): seq<Entry> {
    if idle == [] then []
    else (if idle[0].workerId != w then [idle[0]] else []) + Retain(idle[1..], w)
  }

  /** Second critical section of a worker drop: forget the worker and fail its session. */
  function DropRest(p: Pool, w: WorkerId, now: int): (Pool, seq<nat>) {
    var p' := p.(idle := Retain(p.idle, w), workerSessions := p.workerSessions - {w}, liveness := p.liveness - {w});
    if w !in p.workerSessions || p.workerSessions[w] !in p.sessions then (p', [])
    else
      var id := p.workerSessions[w];
      (p'.(sessions := p.sessions[id := Ended(p.sessions[id], true, now)]), p.sessions[id].closed)
  }

  // ------------------------------------------------------------------ handles

  function Classify(r: ResultFrame): (HandleStatus, ExitCause) {
    if r.cancelled then (Error, CancelledCause)
    else if r.exitSignal.Some? then (Error, Signal)
    else if r.error.Some? then (Error, WorkerError)
    else (Completed, Normal)
  }

  /** What a finalizer holds for a command it has taken out of `inflight`. */
  datatype Verdict = FromResult(result: ResultFrame) | FromClose(cause: ExitCause) | FromDrop(oom: bool)

  const SIGKILL := 9

  /** Settle a handle. Only a running handle is written. */
  function Settle(r: Runtime, v: Verdict, now: int): Runtime {
    if !r.status.Running? then r
    else
      match v
      case FromResult(result) =>
        var (status, cause) := if r.spoolFailed then (Error, OutputError) else Classify(result);
        r.(status := status, finishedAt := Some(now), exitCode := result.exitCode, exitSignal := result.exitSignal,
           exitCause := Some(cause), cancelled := result.cancelled)
      case FromClose(cause) =>
        r.(status := Error, finishedAt := Some(now), exitCause := Some(cause), cancelled := cause.CancelledCause?)
      case FromDrop(oom) =>
        r.(status := if oom then Oomkilled else Error, finishedAt := Some(now),
           exitCause := Some(if oom then OomContainer else WorkerDied),
           exitSignal := if oom then Some(SIGKILL) else r.exitSignal)
  }

  /** What a running handle reads once it is settled, field by field. */
  predicate Reads(was: Runtime, v: Verdict, now: int, r: Runtime) {
    && r.finishedAt == Some(now)
    && match v
       case FromResult(result) =>
         var (sound, ran) := (!was.spoolFailed, result.exitSignal.None?);
         && r.exitCode == result.exitCode && r.exitSignal == result.exitSignal && r.cancelled == result.cancelled
         && (r.exitCause == Some(OutputError) <==> was.spoolFailed)
         && (r.exitCause == Some(CancelledCause) <==> sound && result.cancelled)
         && (r.exitCause == Some(Signal) <==> sound && !result.cancelled && !ran)
         && (r.exitCause == Some(WorkerError) <==> sound && !result.cancelled && ran && result.error.Some?)
         && (r.exitCause == Some(Normal) <==> sound && !result.cancelled && ran && result.error.None?)
         && r.status == (if r.exitCause == Some(Normal) then Completed else Error)
       case FromClose(cause) =>
         && r.status == Error && r.exitCause == Some(cause) && (r.cancelled <==> cause == CancelledCause)
         && r.exitCode == was.exitCode && r.exitSignal == was.exitSignal
       case FromDrop(oom) =>
         && r.status == (if oom then Oomkilled else Error)
         && r.exitCause == Some(if oom then OomContainer else WorkerDied)
         && r.exitCode == was.exitCode && r.exitSignal == (if oom then Some(9) else was.exitSignal)
         && r.cancelled == was.cancelled
  }

  lemma SettleReads(r: Runtime, v: Verdict, now: int)
    ensures r.status.Running? ==> Reads(r, v, now, Settle(r, v, now))
    ensures !r.status.Running? ==> Settle(r, v, now) == r
    ensures Settle(r, v, now).cancelRequested == r.cancelRequested && Settle(r, v, now).spoolFailed == r.spoolFailed
  {
  }

  function Finalize(p: Pool, rid: ExecId, v: Verdict, now: int): Pool {
    if rid !in p.handles then p
    else p.(handles := p.handles[rid := p.handles[rid].(runtime := Settle(p.handles[rid].runtime, v, now))])
  }

  /** A cancel request marks a running handle once. */
  function CancelRequest(p: Pool, rid: ExecId): Pool {
    if rid !in p.handles || !p.handles[rid].runtime.status.Running? then p
    else p.(handles := p.handles[rid := p.handles[rid].(runtime := p.handles[rid].runtime.(cancelRequested := true))])
  }

  function SpoolFailed(p: Pool, rid: ExecId): Pool {
    if rid !in p.handles then p
    else p.(handles := p.handles[rid := p.handles[rid].(runtime := p.handles[rid].runtime.(spoolFailed := true))])
  }

  /** The sweeper purges a handle it has seen in a terminal status. */
  function Purge(p: Pool, rid: ExecId): Pool { p.(handles := p.handles - {rid}) }

  /** The sweeper forgets sessions that finished long enough ago. */
  function Forget(p: Pool, gate: Gate): Pool {
    p.(sessions := map id | id in p.sessions
                            && (p.sessions[id].finishedAt.Some? ==>
                                  Elapsed(gate.now, p.sessions[id].finishedAt.value) <= gate.ttl)
                   :: p.sessions[id])
  }

  // --------------------------------------------------------------- invariants

  /** No worker is queued twice, every queued worker is registered under that
      profile, and none of them is owned by a session. */
  ghost predicate IdleInv(idle: seq<Entry>, liveness: map<WorkerId, string>, owners: map<WorkerId, SessionId>) {
    && (forall i, j :: 0 <= i < j < |idle| ==> idle[i].workerId != idle[j].workerId)
    && (forall i :: 0 <= i < |idle| ==> idle[i].workerId in liveness && liveness[idle[i].workerId] == idle[i].profile)
    && (forall i :: 0 <= i < |idle| ==> idle[i].workerId !in owners)
  }

  /** A worker has at most one session and a session at most one worker; every
      session holding a worker is the one named for it. */
  ghost predicate OwnerInv(liveness: map<WorkerId, string>, owners: map<WorkerId, SessionId>, sessions: map<SessionId,
                           Session>) {
    && owners.Keys <= liveness.Keys
    && (forall w, v :: w in owners && v in owners && w != v ==> owners[w] != owners[v])
    && (forall w :: w in owners && owners[w] in sessions ==>
          sessions[owners[w]].workerId == w && sessions[owners[w]].profile == liveness[w])
    && (forall id :: id in sessions && Holding(sessions[id].state) ==>
          sessions[id].workerId in owners && owners[sessions[id].workerId] == id)
  }

  /** A finished session keeps no input, terminal or waiter; closers wait only while Closing. */
  predicate RecordOk(rec: Session) {
    && (rec.finishedAt.Some? <==> !Holding(rec.state))
    && (!Holding(rec.state) ==> rec.inputs == CLEARED && rec.terminal.None? && !rec.openWaiter)
    && (rec.closed != [] ==> rec.state.Closing?)
    && (rec.terminal.Some? ==> rec.state.Active? || rec.state.Closing?)
  }

  ghost predicate RecordsInv(sessions: map<SessionId, Session>) {
    forall id :: id in sessions ==> RecordOk(sessions[id])
  }

  function StatefulOf(inflight: map<ExecId, Pending>, id: SessionId): set<ExecId> {
    set rid | rid in inflight && inflight[rid].sessionId == id && inflight[rid].mode.Stateful?
  }

  /** The count is never below the stateful commands in flight, and an attached terminal excludes them. */
  ghost predicate CountInv(inflight: map<ExecId, Pending>, sessions: map<SessionId, Session>) {
    forall id :: id in sessions ==>
      && |StatefulOf(inflight, id)| <= sessions[id].statefulCount
      && (sessions[id].terminal.Some? ==> StatefulOf(inflight, id) == {})
  }

  ghost predicate InflightInv(inflight: map<ExecId, Pending>, sessions: map<SessionId, Session>) {
    forall rid :: rid in inflight && inflight[rid].sessionId in sessions ==>
      && inflight[rid].workerId == sessions[inflight[rid].sessionId].workerId
      && inflight[rid].sink == sessions[inflight[rid].sessionId].sink
  }

  ghost predicate PoolInv(p: Pool) {
    && IdleInv(p.idle, p.liveness, p.workerSessions)
    && OwnerInv(p.liveness, p.workerSessions, p.sessions)
    && RecordsInv(p.sessions)
    && CountInv(p.inflight, p.sessions)
    && InflightInv(p.inflight, p.sessions)
  }

  lemma SubsetSize<T>(a: set<T>, b: set<T>)
    requires a <= b
    ensures |a| <= |b|
  {
    assert b == a + (b - a);
  }

  /** A record that keeps its identity, its hold on the worker and its count. */
  ghost predicate Successor(was: Session, rec: Session) {
    && RecordOk(rec)
    && rec.workerId == was.workerId && rec.sink == was.sink && rec.profile == was.profile
    && (Holding(rec.state) ==> Holding(was.state))
    && rec.statefulCount == was.statefulCount
    && (rec.terminal.Some? ==> was.terminal.Some? || was.statefulCount == 0)
  }

  lemma UpdateOwners(liveness: map<WorkerId, string>, owners: map<WorkerId, SessionId>,
                     sessions: map<SessionId, Session>, id: SessionId, rec: Session)
    requires OwnerInv(liveness, owners, sessions) && id in sessions && Successor(sessions[id], rec)
    ensures OwnerInv(liveness, owners, sessions[id := rec])
  {
  }

  lemma UpdateCounts(inflight: map<ExecId, Pending>, sessions: map<SessionId, Session>, id: SessionId, rec: Session)
    requires CountInv(inflight, sessions) && InflightInv(inflight, sessions)
    requires id in sessions && Successor(sessions[id], rec)
    ensures CountInv(inflight, sessions[id := rec]) && InflightInv(inflight, sessions[id := rec])
  {
    if rec.terminal.Some? && sessions[id].terminal.None? {
      assert |StatefulOf(inflight, id)| == 0;
    }
  }

  lemma UpdateRecord(p: Pool, id: SessionId, rec: Session)
    requires PoolInv(p) && id in p.sessions && Successor(p.sessions[id], rec)
    ensures PoolInv(p.(sessions := p.sessions[id := rec]))
  {
    UpdateOwners(p.liveness, p.workerSessions, p.sessions, id, rec);
    UpdateCounts(p.inflight, p.sessions, id, rec);
  }

  lemma RegisterInv(p: Pool, w: WorkerId, profile: string, sink: nat)
    requires PoolInv(p) && Register(p, w, profile, sink).Some?
    ensures PoolInv(Register(p, w, profile, sink).value)
  {
  }

  /** No command of this session is in flight. */
  ghost predicate NoneOf(inflight: map<ExecId, Pending>, id: SessionId) {
    forall rid :: rid in inflight ==> inflight[rid].sessionId != id
  }

  /** Handing a free worker to a new session. */
  lemma NewOwner(liveness: map<WorkerId, string>, owners: map<WorkerId, SessionId>, sessions: map<SessionId, Session>,
                 id: SessionId, rec: Session)
    requires OwnerInv(liveness, owners, sessions)
    requires id !in sessions && id !in owners.Values
    requires rec.workerId in liveness && rec.workerId !in owners && rec.profile == liveness[rec.workerId]
    ensures OwnerInv(liveness, owners[rec.workerId := id], sessions[id := rec])
  {
    assert forall w :: w in owners ==> owners[w] in owners.Values;
  }

  lemma TakeIdle(idle: seq<Entry>, i: nat, liveness: map<WorkerId, string>, owners: map<WorkerId, SessionId>,
                 id: SessionId)
    requires IdleInv(idle, liveness, owners) && i < |idle|
    ensures IdleInv(RemoveAt(idle, i), liveness, owners[idle[i].workerId := id])
  {
    var idle' := RemoveAt(idle, i);
    forall j | 0 <= j < |idle'| ensures idle'[j] == idle[if j < i then j else j + 1] {
    }
  }

  /** A new record, of which no command is in flight. */
  lemma NewRecord(inflight: map<ExecId, Pending>, sessions: map<SessionId, Session>, id: SessionId, rec: Session)
    requires RecordsInv(sessions) && CountInv(inflight, sessions) && InflightInv(inflight, sessions)
    requires NoneOf(inflight, id) && RecordOk(rec)
    ensures RecordsInv(sessions[id := rec]) && CountInv(inflight, sessions[id := rec])
    ensures InflightInv(inflight, sessions[id := rec])
  {
    assert StatefulOf(inflight, id) == {};
  }

  lemma CreateInv(p: Pool, profile: string, id: SessionId, inputs: Inputs, now: int)
    requires PoolInv(p) && id !in p.sessions && id !in p.workerSessions.Values && NoneOf(p.inflight, id)
    requires Create(p, profile, id, inputs, now).Ok?
    ensures PoolInv(Create(p, profile, id, inputs, now).value.0)
  {
    hide OwnerInv, RecordsInv, CountInv, InflightInv, NoneOf, RemoveAt;
    var i := FirstOf(p.idle, profile);
    var rec := NewSession(p.idle[i], inputs, now);
    TakeIdle(p.idle, i, p.liveness, p.workerSessions, id);
    NewOwner(p.liveness, p.workerSessions, p.sessions, id, rec);
    NewRecord(p.inflight, p.sessions, id, rec);
    hide IdleInv;
    var p' := Create(p, profile, id, inputs, now).value.0;
    assert p'.sessions == p.sessions[id := rec] && p'.workerSessions == p.workerSessions[rec.workerId := id];
  }

  lemma ReadyInv(p: Pool, w: WorkerId, id: SessionId, error: Option<string>, now: int)
    requires PoolInv(p)
    ensures PoolInv(SessionReady(p, w, id, error, now))
  {
    var p' := SessionReady(p, w, id, error, now);
    if p' != p {
      UpdateRecord(p, id, p'.sessions[id]);
    }
  }

  lemma TouchInv(p: Pool, id: SessionId, now: int)
    requires PoolInv(p)
    ensures PoolInv(Touch(p, id, now))
    ensures Created(p, id, now).Ok? ==> PoolInv(Created(p, id, now).value)
  {
    if id in p.sessions {
      UpdateRecord(p, id, p.sessions[id].(lastActivityAt := now));
    }
  }

  lemma AttachInv(p: Pool, id: SessionId, terminal: nat, now: int)
    requires PoolInv(p)
    ensures Attach(p, id, terminal, now).Ok? ==> PoolInv(Attach(p, id, terminal, now).value)
    ensures PoolInv(Detach(p, id, terminal, now))
  {
    if id in p.sessions {
      var rec := p.sessions[id];
      if Attach(p, id, terminal, now).Ok? {
        UpdateRecord(p, id, rec.(terminal := Some(terminal), lastActivityAt := now));
      }
      UpdateRecord(p, id, rec.(terminal := None, lastActivityAt := now));
    }
  }

  lemma CloseInv(p: Pool, id: SessionId, gate: Option<Gate>, waiter: nat)
    requires PoolInv(p)
    ensures Close(p, id, gate, waiter).Ok? ==> PoolInv(Close(p, id, gate, waiter).value.0)
  {
    if id in p.sessions && Holding(p.sessions[id].state) {
      var rec := p.sessions[id];
      UpdateRecord(p, id, rec.(state := Closing, closed := rec.closed + [waiter]));
    }
  }

  lemma StatefulAdd(inflight: map<ExecId, Pending>, rid: ExecId, pending: Pending, id: SessionId)
    requires rid !in inflight
    ensures StatefulOf(inflight[rid := pending], id)
            == StatefulOf(inflight, id) + (if pending.sessionId == id && pending.mode.Stateful? then {rid} else {})
  {
  }

  lemma StatefulRemove(inflight: map<ExecId, Pending>, rid: ExecId, id: SessionId)
    requires rid in inflight
    ensures StatefulOf(inflight - {rid}, id)
            == StatefulOf(inflight, id)
               - (if inflight[rid].sessionId == id && inflight[rid].mode.Stateful? then {rid} else {})
  {
  }

  lemma SubmitInv(p: Pool, id: SessionId, rid: ExecId, mode: Mode, worker: WorkerId, sink: nat, now: int)
    requires PoolInv(p) && rid !in p.inflight
    requires id in p.sessions ==> worker == p.sessions[id].workerId && sink == p.sessions[id].sink
    requires Submit(p, id, rid, mode, worker, sink, now).Ok?
    ensures PoolInv(Submit(p, id, rid, mode, worker, sink, now).value)
  {
    hide IdleInv;
    var p' := Submit(p, id, rid, mode, worker, sink, now).value;
    assert CountInv(p'.inflight, p'.sessions) by {
      hide OwnerInv, RecordsInv, InflightInv;
      SubmitCounts(p, id, rid, mode, worker, sink, now);
    }
  }

  lemma SubmitCounts(p: Pool, id: SessionId, rid: ExecId, mode: Mode, worker: WorkerId, sink: nat, now: int)
    requires CountInv(p.inflight, p.sessions) && rid !in p.inflight && Submit(p, id, rid, mode, worker, sink, now).Ok?
    ensures var p' := Submit(p, id, rid, mode, worker, sink, now).value; CountInv(p'.inflight, p'.sessions)
  {
    var p' := Submit(p, id, rid, mode, worker, sink, now).value;
    forall i | i in p'.sessions
      ensures |StatefulOf(p'.inflight, i)| <= p'.sessions[i].statefulCount
      ensures p'.sessions[i].terminal.Some? ==> StatefulOf(p'.inflight, i) == {}
    {
      StatefulAdd(p.inflight, rid, p'.inflight[rid], i);
    }
  }

  lemma CompleteCounts(p: Pool, rid: ExecId, now: int)
    requires CountInv(p.inflight, p.sessions)
    ensures var p' := CompleteRequest(p, rid, now); CountInv(p'.inflight, p'.sessions)
  {
    var p' := CompleteRequest(p, rid, now);
    if rid in p.inflight {
      forall i | i in p'.sessions
        ensures |StatefulOf(p'.inflight, i)| <= p'.sessions[i].statefulCount
        ensures p'.sessions[i].terminal.Some? ==> StatefulOf(p'.inflight, i) == {}
      {
        StatefulRemove(p.inflight, rid, i);
      }
    }
  }

  lemma CompleteRest(p: Pool, rid: ExecId, now: int)
    requires OwnerInv(p.liveness, p.workerSessions, p.sessions) && RecordsInv(p.sessions)
    ensures var p' := CompleteRequest(p, rid, now);
            OwnerInv(p'.liveness, p'.workerSessions, p'.sessions) && RecordsInv(p'.sessions)
  {
  }

  lemma CompleteInflight(p: Pool, rid: ExecId, now: int)
    requires InflightInv(p.inflight, p.sessions)
    ensures InflightInv(CompleteRequest(p, rid, now).inflight, CompleteRequest(p, rid, now).sessions)
  {
  }

  lemma CompleteInv(p: Pool, rid: ExecId, now: int)
    requires PoolInv(p)
    ensures PoolInv(CompleteRequest(p, rid, now))
  {
    hide IdleInv, OwnerInv, RecordsInv, CountInv, InflightInv;
    CompleteCounts(p, rid, now);
    CompleteRest(p, rid, now);
    CompleteInflight(p, rid, now);
  }

  /** Taking commands away keeps the counts and the records right. */
  lemma FewerCommands(inflight: map<ExecId, Pending>, gone: set<ExecId>, sessions: map<SessionId, Session>)
    requires CountInv(inflight, sessions) && InflightInv(inflight, sessions)
    ensures CountInv(inflight - gone, sessions) && InflightInv(inflight - gone, sessions)
  {
    forall id | id in sessions
      ensures |StatefulOf(inflight - gone, id)| <= sessions[id].statefulCount
      ensures sessions[id].terminal.Some? ==> StatefulOf(inflight - gone, id) == {}
    {
      assert StatefulOf(inflight - gone, id) <= StatefulOf(inflight, id);
      SubsetSize(StatefulOf(inflight - gone, id), StatefulOf(inflight, id));
    }
  }

  /** Ending the session a worker owns releases the worker. */
  lemma ReleaseOwner(liveness: map<WorkerId, string>, owners: map<WorkerId, SessionId>,
                     sessions: map<SessionId, Session>, w: WorkerId, failed: bool, now: int)
    requires OwnerInv(liveness, owners, sessions) && w in owners && owners[w] in sessions
    ensures OwnerInv(liveness, owners - {w}, sessions[owners[w] := Ended(sessions[owners[w]], failed, now)])
  {
  }

  lemma ClosedInv(p: Pool, w: WorkerId, id: SessionId, error: Option<string>, reusable: bool, now: int)
    requires PoolInv(p) && w in p.workerSessions && p.workerSessions[w] == id
    requires SessionClosed(p, w, id, error, reusable, now).Some?
    ensures PoolInv(SessionClosed(p, w, id, error, reusable, now).value.pool)
  {
    var p' := SessionClosed(p, w, id, error, reusable, now).value.pool;
    ReleaseOwner(p.liveness, p.workerSessions, p.sessions, w, error.Some?, now);
    FewerCommands(p.inflight, InflightOf(p.inflight, id).Keys, p.sessions);
    UpdateCounts(p'.inflight, p.sessions, id, p'.sessions[id]);
  }

  lemma TakeInv(p: Pool, w: WorkerId)
    requires PoolInv(p)
    ensures PoolInv(DropTake(p, w).0)
  {
    FewerCommands(p.inflight, OnWorker(p.inflight, w), p.sessions);
  }

  lemma {:induction false} RetainIdle(idle: seq<Entry>, w: WorkerId, liveness: map<WorkerId, string>,
                                      owners: map<WorkerId, SessionId>)
    requires IdleInv(idle, liveness, owners)
    ensures var idle' := Retain(idle, w);
            && IdleInv(idle', liveness - {w}, owners - {w})
            && (forall i :: 0 <= i < |idle'| ==> idle'[i] in idle && idle'[i].workerId != w)
            && (forall i :: 0 <= i < |idle| && idle[i].workerId != w ==> idle[i] in idle')
  {
    if idle != [] {
      assert forall i :: 0 <= i < |idle[1..]| ==> idle[1..][i] == idle[i + 1];
      RetainIdle(idle[1..], w, liveness, owners);
      var rest := Retain(idle[1..], w);
      forall i | 0 <= i < |rest| ensures rest[i].workerId != idle[0].workerId {
        var j :| 0 <= j < |idle[1..]| && idle[1..][j] == rest[i];
        assert idle[0].workerId != idle[j + 1].workerId;
      }
    }
  }

  lemma RestOwners(p: Pool, w: WorkerId, now: int)
    requires OwnerInv(p.liveness, p.workerSessions, p.sessions)
    ensures var p' := DropRest(p, w, now).0;
            && OwnerInv(p'.liveness, p'.workerSessions, p'.sessions)
            && IsDropped(p, p', w, now)
  {
    if w in p.workerSessions && p.workerSessions[w] in p.sessions {
      ReleaseOwner(p.liveness, p.workerSessions, p.sessions, w, true, now);
    }
  }

  predicate IsDropped(p: Pool, p': Pool, w: WorkerId, now: int) {
    && p'.idle == Retain(p.idle, w) && p'.inflight == p.inflight
    && p'.liveness == p.liveness - {w} && p'.workerSessions == p.workerSessions - {w}
    && (p'.sessions == p.sessions
        || (w in p.workerSessions && p.workerSessions[w] in p.sessions
            && p'.sessions == p.sessions[p.workerSessions[w] := Ended(p.sessions[p.workerSessions[w]], true, now)]))
  }

  lemma RestInv(p: Pool, w: WorkerId, now: int)
    requires PoolInv(p)
    ensures PoolInv(DropRest(p, w, now).0)
  {
    hide IdleInv, OwnerInv, CountInv, InflightInv, DropRest, Retain;
    RetainIdle(p.idle, w, p.liveness, p.workerSessions);
    RestOwners(p, w, now);
    if w in p.workerSessions && p.workerSessions[w] in p.sessions {
      var id := p.workerSessions[w];
      UpdateCounts(p.inflight, p.sessions, id, Ended(p.sessions[id], true, now));
    }
  }

  lemma ForgetInv(p: Pool, gate: Gate)
    requires PoolInv(p)
    ensures PoolInv(Forget(p, gate))
  {
  }

  // ----------------------------------------------------------------- occupancy

  /** The workers the server counts as busy: with a command in flight, or owned by a session. */
  function BusyWorkers(p: Pool): set<WorkerId> {
    (set rid | rid in p.inflight :: p.inflight[rid].workerId) + p.workerSessions.Keys
  }

  /** Idle and busy, as /health and /ready report them. */
  function Snapshot(p: Pool): (nat, nat) { (|p.idle|, |BusyWorkers(p)|) }

  /** Every command in flight is on a worker that its session owns. */
  ghost predicate Owned(p: Pool) {
    forall rid :: rid in p.inflight ==>
      p.inflight[rid].workerId in p.workerSessions
      && p.workerSessions[p.inflight[rid].workerId] == p.inflight[rid].sessionId
  }

  function IdleSet(idle: seq<Entry>): set<WorkerId> {
    set i | 0 <= i < |idle| :: idle[i].workerId
  }

  lemma {:induction false} IdleIds(idle: seq<Entry>)
    requires forall i, j :: 0 <= i < j < |idle| ==> idle[i].workerId != idle[j].workerId
    ensures |IdleSet(idle)| == |idle|
  {
    if idle != [] {
      var n := |idle| - 1;
      IdleIds(idle[..n]);
      assert IdleSet(idle) == IdleSet(idle[..n]) + {idle[n].workerId};
      assert idle[n].workerId !in IdleSet(idle[..n]);
    } else {
      assert IdleSet(idle) == {};
    }
  }

  /** Idle and busy workers never exceed the registered ones; busy ones are just
      the sessions', if every command in flight is on its session's worker; and
      the idle count is the number of registered workers in the queue. */
  lemma SnapshotBound(p: Pool)
    requires PoolInv(p) && Owned(p)
    ensures Snapshot(p).0 + Snapshot(p).1 <= |p.liveness| && Snapshot(p).1 == |p.workerSessions|
    ensures Snapshot(p).0 == |IdleSet(p.idle)| && IdleSet(p.idle) <= p.liveness.Keys
  {
    hide RecordsInv, CountInv, InflightInv;
    assert BusyWorkers(p) == p.workerSessions.Keys;
    IdleIds(p.idle);
    SubsetSize(IdleSet(p.idle) + BusyWorkers(p), p.liveness.Keys);
    assert IdleSet(p.idle) !! BusyWorkers(p);
  }
}
