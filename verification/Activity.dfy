/** The time a session counts as last used, on which idle reclaim rests: over
    every run of the system. */
module Activity {
  import opened Wrappers
  import opened Protocol
  import P = ServerPool
  import opened System
  import opened Composition
  import opened Frames
  import G = Guarantees
  import O = Outcomes

  /** A step uses the session: it is created, its creation is confirmed, it is
      read while active, a command is registered or its result read, or a terminal
      is attached or detached. */
  predicate Uses(s: Sys, l: Label, id: SessionId) {
    match l
    case CreateSession(i, _, _, _) => i == id && id !in s.usedSessions && id in Next(s, l).usedSessions
    case ReplyCreated(i, _) =>
      && i == id && id in s.pool.sessions && s.pool.sessions[id].state == P.Active
      && var w := s.pool.sessions[id].workerId;
         w in s.pool.liveness && w in s.pool.workerSessions && s.pool.workerSessions[w] == id
    case Status(i, _) => i == id && id in s.pool.sessions && s.pool.sessions[id].state == P.Active
    case RegisterCommand(i, _) =>
      && i == id && id in s.holders && s.holders[id].Submitting? && s.holders[id].execute.requestId !in s.usedCommands
      && id in s.pool.sessions && s.pool.sessions[id].state == P.Active
      && (s.holders[id].mode == Stateful ==> s.pool.sessions[id].terminal == None)
    case Deliver(w, _) =>
      && w in s.conns && s.conns[w].up != [] && s.conns[w].up[0].ResultOf?
      && var rid := s.conns[w].up[0].result.requestId;
         rid in s.pool.inflight && s.pool.inflight[rid].sessionId == id && id in s.pool.sessions
    case AttachTerminal(i, _, _) =>
      && i == id && id in s.pool.sessions && s.pool.sessions[id].state == P.Active
      && s.pool.sessions[id].terminal == None && s.pool.sessions[id].statefulCount == 0
    case DetachTerminal(i, terminal, _) =>
      i == id && id in s.pool.sessions && s.pool.sessions[id].terminal == Some(terminal)
    case _ => false
  }

  /** The clock of a step that uses a session. */
  function Clock(l: Label): int {
    match l
    case CreateSession(_, _, _, now) => now
    case ReplyCreated(_, now) => now
    case Status(_, now) => now
    case RegisterCommand(_, now) => now
    case Deliver(_, now) => now
    case AttachTerminal(_, _, now) => now
    case DetachTerminal(_, _, now) => now
    case _ => 0
  }

  /** When the last step of a run that used the session was taken, if there was one. */
  function LastUse(labels: seq<Label>, id: SessionId): Option<int>
    decreases |labels|
  {
    if labels == [] then None
    else
      var before, l := labels[..|labels| - 1], labels[|labels| - 1];
      if Uses(Exec(INIT, before), l, id) then Some(Clock(l)) else LastUse(before, id)
  }

  /** What a step makes of a session's record: the time it was last used moves
      exactly when it is used, and what its commands are given stays as it was asked for. */
  predicate RecordMoved(s: Sys, l: Label, id: SessionId, rec': P.Session) {
    if l.CreateSession? && l.id == id && id !in s.pool.sessions
    then Uses(s, l, id) && rec'.lastActivityAt == l.now && rec'.inputs == l.inputs
    else
      && id in s.pool.sessions
      && rec'.lastActivityAt == (if Uses(s, l, id) then Clock(l) else s.pool.sessions[id].lastActivityAt)
      && (P.Holding(rec'.state) ==>
            P.Holding(s.pool.sessions[id].state) && rec'.inputs == s.pool.sessions[id].inputs)
  }

  ghost predicate RecordsMoved(s: Sys, l: Label) {
    forall id :: id in Next(s, l).pool.sessions ==> RecordMoved(s, l, id, Next(s, l).pool.sessions[id])
  }

  lemma SameRecords(s: Sys, l: Label)
    requires Next(s, l).pool.sessions == s.pool.sessions && forall id :: !Uses(s, l, id)
    ensures RecordsMoved(s, l)
  {
    hide Next, Uses;
  }

  lemma CreateMoved(s: Sys, l: Label)
    requires l.CreateSession? && s.pool.sessions.Keys <= s.usedSessions
    ensures RecordsMoved(s, l)
  {
    hide Next;
    NextAtPool(s, l);
    if l.id !in s.usedSessions && P.Create(s.pool, l.profile, l.id, l.inputs, l.now).Ok? {
      CreateShape(s, l.id, l.profile, l.inputs, l.now);
    }
  }

  lemma PoolMoved(s: Sys, l: Label)
    requires PoolOnly(l)
    ensures RecordsMoved(s, l)
  {
    hide Next, P.Holding;
    PoolOnlyStep(s, l);
    if l.AttachTerminal? || l.DetachTerminal? {
      TerminalMoved(s, l);
    }
  }

  lemma TerminalMoved(s: Sys, l: Label)
    requires l.AttachTerminal? || l.DetachTerminal?
    ensures RecordsMoved(s, l)
  {
    hide Next, P.Holding;
    PoolOnlyStep(s, l);
  }

  lemma RegisterMoved(s: Sys, l: Label)
    requires l.RegisterCommand?
    ensures RecordsMoved(s, l)
  {
    hide Next;
    NextAtPool(s, l);
  }

  lemma CloseMoved(s: Sys, l: Label)
    requires l.BeginClose?
    ensures RecordsMoved(s, l)
  {
    hide Next, DoBeginClose;
    NextAtPool(s, l);
    if l.id in s.holders {
      O.HeldClose(s, l);
    } else {
      BeginCloseShape(s, l.id, l.gate, l.waiter);
    }
  }

  /** A record keeps its time, and, while it holds a worker, its input. */
  predicate Untouched(rec: P.Session, rec': P.Session) {
    && rec'.lastActivityAt == rec.lastActivityAt
    && (P.Holding(rec'.state) ==> P.Holding(rec.state) && rec'.inputs == rec.inputs)
  }

  lemma ReadRecords(p: P.Pool, w: WorkerId, i: SessionId, error: Option<string>, reusable: bool, now: int)
    ensures var p' := P.SessionReady(p, w, i, error, now);
            forall id :: id in p'.sessions ==> id in p.sessions && Untouched(p.sessions[id], p'.sessions[id])
    ensures var r := P.SessionClosed(p, w, i, error, reusable, now);
            r.Some? ==> forall id :: id in r.value.pool.sessions ==>
                          id in p.sessions && Untouched(p.sessions[id], r.value.pool.sessions[id])
  {
    hide P.InflightOf;
  }

  lemma ResultRecords(p: P.Pool, rid: ExecId, now: int)
    ensures var p' := P.CompleteRequest(p, rid, now);
            forall id :: id in p'.sessions ==>
              && id in p.sessions
              && p'.sessions[id].lastActivityAt
                 == (if rid in p.inflight && p.inflight[rid].sessionId == id
                     then now else p.sessions[id].lastActivityAt)
              && p'.sessions[id].state == p.sessions[id].state && p'.sessions[id].inputs == p.sessions[id].inputs
  {
  }

  lemma ResultMoved(s: Sys, l: Label)
    requires l.Deliver? && l.w in s.conns && s.conns[l.w].up != [] && s.conns[l.w].up[0].ResultOf?
    ensures RecordsMoved(s, l)
  {
    hide Next, Tasks, P.CompleteRequest, P.Holding;
    NextAtPool(s, l);
    ResultRecords(s.pool, s.conns[l.w].up[0].result.requestId, l.now);
  }

  lemma DeliverMoved(s: Sys, l: Label)
    requires l.Deliver?
    ensures RecordsMoved(s, l)
  {
    hide Next, Tasks, P.SessionReady, P.CompleteRequest, P.SessionClosed, P.Holding;
    if l.w in s.conns && s.conns[l.w].up != [] && s.conns[l.w].up[0].ResultOf? {
      ResultMoved(s, l);
    } else {
      NextAtPool(s, l);
      if l.w in s.conns && s.conns[l.w].up != [] {
        var f := s.conns[l.w].up[0];
        if f.SessionReady? {
          ReadRecords(s.pool, l.w, f.sessionId, f.error, true, l.now);
        } else if f.SessionClosed? {
          ReadRecords(s.pool, l.w, f.sessionId, f.error, f.reusable, l.now);
        }
      }
    }
  }

  lemma ForgetMoved(s: Sys, l: Label)
    requires l.ForgetDropped?
    ensures RecordsMoved(s, l)
  {
    hide Next, P.Retain;
    NextAtPool(s, l);
  }

  lemma StepMoved(s: Sys, l: Label)
    requires s.pool.sessions.Keys <= s.usedSessions
    ensures RecordsMoved(s, l)
  {
    hide Next, RecordsMoved;
    match l
    case CreateSession(_, _, _, _) => CreateMoved(s, l);
    case RegisterCommand(_, _) => RegisterMoved(s, l);
    case BeginClose(_, _, _) => CloseMoved(s, l);
    case Deliver(_, _) => DeliverMoved(s, l);
    case ForgetDropped(_, _) => ForgetMoved(s, l);
    case _ =>
      if PoolOnly(l) {
        PoolMoved(s, l);
      } else {
        OtherRecords(s, l);
        SameRecords(s, l);
      }
  }

  lemma OtherRecords(s: Sys, l: Label)
    requires !PoolOnly(l) && !l.CreateSession? && !l.RegisterCommand? && !l.BeginClose? && !l.Deliver?
             && !l.ForgetDropped?
    ensures Next(s, l).pool.sessions == s.pool.sessions && forall id :: !Uses(s, l, id)
  {
    hide Next, P.Settle, P.OnWorker, Tasks;
    NextAtPool(s, l);
    if AtServer(l) {
      ServerKeepsPool(s, l);
    } else if AtWorker(l) {
      WorkerKeepsPool(s, l);
    }
  }

  // ------------------------------------------------------------------- theorems

  /** In every run, the time kept in a session's record is that of the last step
      that used it. */
  lemma {:induction false} LastActivity(labels: seq<Label>, id: SessionId)
    ensures var s := Exec(INIT, labels);
            id in s.pool.sessions ==> LastUse(labels, id) == Some(s.pool.sessions[id].lastActivityAt)
    decreases |labels|
  {
    hide Next, SysInv, Uses;
    if labels != [] {
      var before, l := labels[..|labels| - 1], labels[|labels| - 1];
      LastActivity(before, id);
      LastStep(labels);
      Known(before);
      StepMoved(Exec(INIT, before), l);
      if id in Exec(INIT, labels).pool.sessions {
        assert RecordMoved(Exec(INIT, before), l, id, Exec(INIT, labels).pool.sessions[id]);
      }
    }
  }

  lemma Known(labels: seq<Label>)
    ensures Exec(INIT, labels).pool.sessions.Keys <= Exec(INIT, labels).usedSessions
  {
    hide Exec, P.PoolInv, LinksInv, SinksInv, HoldersInv, InflightHome;
    Reachable(labels);
  }

  /** So the sweeper closes a session exactly if nobody holds its send lock, it is
      active without a terminal, no command of it is in flight, and its last use
      was longer ago than the limit. */
  lemma ReclaimedByUse(labels: seq<Label>, id: SessionId, gate: P.Gate, waiter: nat)
    ensures var s := Exec(INIT, labels);
            Next(s, BeginClose(id, Some(gate), waiter)) != s <==>
              && id !in s.holders && id in s.pool.sessions
              && s.pool.sessions[id].state == P.Active && s.pool.sessions[id].terminal == None && !G.InUse(s, id)
              && LastUse(labels, id).Some? && gate.now - LastUse(labels, id).value > gate.ttl
  {
    hide Exec, Next, LastUse, G.InUse;
    LastActivity(labels, id);
    G.IdleReclaim(labels, id, gate, waiter);
  }

  /** In every run, a session that holds a worker keeps the input it was created with. */
  lemma {:induction false} InputsKept(labels: seq<Label>, id: SessionId)
    ensures var s := Exec(INIT, labels);
            id in s.pool.sessions && P.Holding(s.pool.sessions[id].state) ==>
              exists m :: m in Past(labels) && CreatedAt(m, id, s.pool.sessions[id].inputs)
    decreases |labels|
  {
    hide Next, SysInv, Past, P.Holding;
    if labels != [] {
      var before, l := labels[..|labels| - 1], labels[|labels| - 1];
      var s := Exec(INIT, before);
      InputsKept(before, id);
      LastStep(labels);
      PastGrows(labels);
      Known(before);
      StepMoved(s, l);
      if id in Exec(INIT, labels).pool.sessions && P.Holding(Exec(INIT, labels).pool.sessions[id].state) {
        var rec' := Exec(INIT, labels).pool.sessions[id];
        assert RecordMoved(s, l, id, rec');
        if l.CreateSession? && l.id == id && id !in s.pool.sessions {
          assert Moment(s, l) in Past(labels) && CreatedAt(Moment(s, l), id, rec'.inputs);
        } else {
          var m :| m in Past(before) && CreatedAt(m, id, rec'.inputs);
          assert m in Past(labels);
        }
      }
    }
  }
}
