/** One worker and its connection to the server: the two FIFO channels of the
    dispatch socket, the worker's side of the session protocol
    (`serve_session` and `run_session` in shiitake-worker/src/client.rs), and what
    the server's state says about that worker. */
module Link {
  import opened Wrappers
  import opened Protocol
  import S = Scheduler

  /** Where the worker process stands. `Leaving` is the time between the session
      loop and the report that follows the sandbox reset. `left` is the loop as it
      was left: its commands may still be running until the reset is done. */
  datatype Worker =
    | Awaiting
    | Serving(id: SessionId, sched: S.Sched)
    | Leaving(id: SessionId, error: Option<string>, left: Option<S.Sched>)
    | Gone(left: Option<S.Sched>)

  /** `down` carries frames to the worker, `up` to the server. */
  datatype Conn = Conn(sink: nat, down: seq<Frame>, up: seq<Frame>, worker: Worker)

  // ------------------------------------------------------------- worker steps

  /** One arm of the session loop. */
  function Worked(c: Conn, id: SessionId, sched: S.Sched, e: S.Event): (c': Conn)
    ensures c'.sink == c.sink && c'.down == c.down
  {
    var (sched', out) := S.Step(sched, e);
    c.(up := c.up + out,
       worker := if sched'.ended.None? then Serving(id, sched')
                 else if sched'.ended.value.Lost? then Gone(Some(sched'))
                 else Leaving(id, S.ErrorOf(sched'.ended.value), Some(sched')))
  }

  /** The event a frame is to a serving worker, if it concerns its session. */
  function EventOf(f: Frame, id: SessionId): Option<S.Event> {
    match f
    case SessionRun(i, execute, mode) => if i == id then Some(S.RunFrame(execute, mode)) else None
    case Cancel(rid) => Some(S.CancelFrame(rid))
    case SessionClose(i) => if i == id then Some(S.CloseFrame) else None
    case _ => None
  }

  /** The worker reads the next frame: between sessions only an open counts,
      during the reset nothing does. `spawnError` is set when the shell cannot be started. */
  function Receive(c: Conn, spawnError: Option<string>, home: Option<string>): (c': Conn)
    requires c.down != []
    ensures c'.sink == c.sink && (c'.down == c.down[1..] || c'.down == c.down)
  {
    var f, rest := c.down[0], c.(down := c.down[1..]);
    match c.worker
    case Awaiting =>
      if !f.SessionOpen? then rest
      else if spawnError.Some? then
        rest.(up := c.up + [SessionReady(f.sessionId, spawnError)], worker := Leaving(f.sessionId, spawnError, None))
      else
        rest.(up := c.up + [SessionReady(f.sessionId, None)],
              worker := Serving(f.sessionId, S.Start(S.Shell(f.workingDir, f.env), home, f.dropTo)))
    case Serving(id, sched) =>
      var e := EventOf(f, id);
      if e.Some? then Worked(rest, id, sched, e.value) else rest
    case Leaving(_, _, _) => rest
    case Gone(_) => c
  }

  /** The report after the reset. A failed send ends the connection. Only a reset
      that was done and succeeded is known to have ended what the loop left running. */
  function Report(c: Conn, resetFailed: bool, exiting: bool, ok: bool): (c': Conn)
    ensures c'.sink == c.sink && c'.down == c.down
  {
    if !c.worker.Leaving? then c
    else if !ok then c.(worker := Gone(c.worker.left))
    else
      var error := if resetFailed then Some("sandbox reset failed") else c.worker.error;
      var reusable := !resetFailed && !exiting;
      c.(up := c.up + [SessionClosed(c.worker.id, error, reusable)],
         worker := if reusable then Awaiting else Gone(c.worker.left))
  }

  /** The process dies or gives the connection up while it has work. */
  function Crash(c: Conn): (c': Conn)
    ensures c'.sink == c.sink && c'.down == c.down
  {
    if c.worker.Serving? then c.(worker := Gone(Some(c.worker.sched)))
    else if c.worker.Leaving? then c.(worker := Gone(c.worker.left))
    else c
  }

  // ------------------------------------------------ what the server knows of it

  /** The part of the server's state that concerns one worker: the session that
      owns it, whether it is queued as idle, its session record's state, an open
      or a command not yet written to its socket, and its session's commands. */
  datatype Slice = Slice(
    owner: Option<SessionId>,
    idle: bool,
    present: bool,
    holding: bool,
    active: bool,
    unsent: bool,
    pending: Option<(ExecId, Mode)>,
    inflight: map<ExecId, Mode>)

  function PendingIds(sl: Slice): multiset<ExecId> {
    if sl.pending.Some? then multiset{sl.pending.value.0} else multiset{}
  }

  /** The loop a worker has left, if it has left one and not reset since. */
  function LeftBy(w: Worker): Option<S.Sched> { if w.Leaving? || w.Gone? then w.left else None }

  /** The commands a worker holds and has not answered for. */
  function HeldBy(w: Worker): multiset<ExecId> {
    if w.Serving? then S.Held(w.sched)
    else if LeftBy(w).Some? then S.Owed(LeftBy(w).value)
    else multiset{}
  }

  /** `modes` agrees with what the worker holds of a loop it has left, but for the command it gave up. */
  ghost predicate LeftModes(l: S.Sched, modes: map<ExecId, Mode>) {
    && (forall i :: 0 <= i < |l.queued| ==>
          l.queued[i].execute.requestId in modes && modes[l.queued[i].execute.requestId] == l.queued[i].mode)
    && (l.stateful.Some? && S.GivenUp(l).None? ==> l.stateful.value in modes && modes[l.stateful.value].Stateful?)
  }

  ghost predicate LeftOk(w: Worker, modes: map<ExecId, Mode>) {
    LeftBy(w).Some? ==> S.Inv(LeftBy(w).value) && S.GivesUpOwn(LeftBy(w).value) && LeftModes(LeftBy(w).value, modes)
  }

  /** Where a session's commands are: about to be written, on the wire, waiting or
      running at the worker, or answered and on the way back. */
  function Whereabouts(sl: Slice, id: SessionId, c: Conn): multiset<ExecId> {
    PendingIds(sl) + Carried(c.down, id) + HeldBy(c.worker) + Answered(c.up)
  }

  /** Commands on the wire have the mode the server recorded. */
  ghost predicate ModesOk(sl: Slice, id: SessionId, down: seq<Frame>) {
    && (sl.pending.Some? ==> sl.pending.value.0 in sl.inflight && sl.inflight[sl.pending.value.0] == sl.pending.value.1)
    && (forall i :: 0 <= i < |down| && down[i].SessionRun? && down[i].sessionId == id ==>
          down[i].execute.requestId in sl.inflight && sl.inflight[down[i].execute.requestId] == down[i].mode)
  }

  /** Frames a worker writes before its report. */
  ghost predicate Interim(up: seq<Frame>, id: SessionId) {
    forall i :: 0 <= i < |up| ==> (up[i].SessionReady? && up[i].sessionId == id) || up[i].ResultOf?
  }

  ghost predicate OpenedOk(up: seq<Frame>) {
    forall i :: 0 <= i < |up| && up[i].SessionReady? ==> up[i].error.None?
  }

  predicate Away(w: Worker) { w.Awaiting? || w.Gone? }

  /** No session owns the worker: it holds none, and owes no frame. */
  predicate FreeOk(sl: Slice, c: Conn) {
    && Away(c.worker) && (sl.idle ==> c.worker.Awaiting?)
    && c.up == [] && Opens(c.down) == []
  }

  /** The open has not reached the worker yet. */
  predicate WaitingOk(sl: Slice, id: SessionId, c: Conn) {
    && c.worker.Awaiting? && c.up == []
    && sl.holding && !sl.active
    && sl.inflight == map[] && sl.pending.None? && Carried(c.down, id) == multiset{}
    && Opens(c.down) == (if sl.unsent then [] else [id])
  }

  /** The worker is in the session's loop. */
  ghost predicate ServingOk(sl: Slice, id: SessionId, c: Conn) {
    && c.worker.Serving? && c.worker.id == id && c.worker.sched.ended.None?
    && S.Inv(c.worker.sched) && S.ModesIn(c.worker.sched, sl.inflight)
    && sl.holding && !sl.unsent && Opens(c.down) == []
    && Interim(c.up, id) && OpenedOk(c.up)
    && Whereabouts(sl, id, c) == multiset(sl.inflight.Keys)
    && ModesOk(sl, id, c.down)
  }

  /** The loop is over and its report has not been sent. */
  ghost predicate LeavingOk(sl: Slice, id: SessionId, c: Conn) {
    && ((c.worker.Leaving? && c.worker.id == id) || c.worker.Gone?) && LeftOk(c.worker, sl.inflight)
    && !sl.unsent && Opens(c.down) == []
    && Interim(c.up, id)
    && Whereabouts(sl, id, c) <= multiset(sl.inflight.Keys)
    && ModesOk(sl, id, c.down)
  }

  /** The report is on the way to the server, the last frame of its channel. */
  ghost predicate ReportedOk(sl: Slice, id: SessionId, c: Conn) {
    && Away(c.worker) && LeftOk(c.worker, sl.inflight)
    && !sl.unsent && Opens(c.down) == []
    && c.up != [] && c.up[|c.up| - 1].SessionClosed? && c.up[|c.up| - 1].sessionId == id
    && (c.up[|c.up| - 1].reusable ==> c.worker.Awaiting?)
    && Interim(c.up[..|c.up| - 1], id)
    && Whereabouts(sl, id, c) <= multiset(sl.inflight.Keys)
    && ModesOk(sl, id, c.down)
  }

  /** The server forgot a failed session before its worker reported it; the worker stays allocated. */
  predicate LeakedOk(sl: Slice, c: Conn) {
    !sl.present && Away(c.worker) && !sl.unsent && c.up == [] && Opens(c.down) == []
  }

  ghost predicate ConnInv(sl: Slice, c: Conn) {
    match sl.owner
    case None => FreeOk(sl, c)
    case Some(id) =>
      WaitingOk(sl, id, c) || ServingOk(sl, id, c) || LeavingOk(sl, id, c) || ReportedOk(sl, id, c) || LeakedOk(sl, c)
  }

  // --------------------------------------------------------- worker-side steps

  lemma InterimConcat(a: seq<Frame>, b: seq<Frame>, id: SessionId)
    requires Interim(a, id) && (forall i :: 0 <= i < |b| ==> b[i].ResultOf?)
    ensures Interim(a + b, id) && (OpenedOk(a) ==> OpenedOk(a + b))
  {
  }

  lemma {:induction false} AdmitAnswers(s: S.Sched, setup: S.Setup)
    ensures forall i :: 0 <= i < |S.Admit(s, setup).1| ==> S.Admit(s, setup).1[i].ResultOf?
    decreases |s.queued|
  {
    if s.ended.None? && s.stateful.None? && |s.running| < S.LIMIT && s.queued != [] && s.queued[0].mode.Parallel? {
      AdmitAnswers(S.Launch(s), setup);
    }
  }

  lemma StepAnswers(s: S.Sched, e: S.Event)
    ensures forall i :: 0 <= i < |S.Step(s, e).1| ==> S.Step(s, e).1[i].ResultOf?
  {
    if e.Admission? {
      AdmitAnswers(s, e.setup);
    }
  }

  /** Counting: what a step held or was brought, it holds or has answered. */
  lemma Balance(pending: multiset<ExecId>, carried: multiset<ExecId>, offered: multiset<ExecId>, held: multiset<ExecId>,
                up: multiset<ExecId>, held': multiset<ExecId>, out: multiset<ExecId>, total: multiset<ExecId>)
    requires pending + carried + offered + held + up == total
    ensures held' + out == held + offered ==> pending + carried + held' + (up + out) == total
    ensures held' + out <= held + offered ==> pending + carried + held' + (up + out) <= total
  {
    var rest := pending + carried + up;
    assert pending + carried + held' + (up + out) == rest + (held' + out);
    assert rest + (held + offered) == pending + carried + offered + held + up;
    if held' + out <= held + offered {
      assert rest + (held' + out) <= rest + (held + offered);
    }
  }

  /** A step of the session loop, on a connection from which the frame that
      caused it, if any, has been taken. */
  lemma WorkedInv(sl: Slice, id: SessionId, c: Conn, sched: S.Sched, e: S.Event)
    requires sl.owner == Some(id) && sl.holding && !sl.unsent
    requires sched.ended.None? && S.Inv(sched) && S.ModesIn(sched, sl.inflight) && S.Legal(sched, e)
    requires Opens(c.down) == [] && Interim(c.up, id) && OpenedOk(c.up) && ModesOk(sl, id, c.down)
    requires PendingIds(sl) + Carried(c.down, id) + S.Offered(e) + S.Held(sched) + Answered(c.up)
             == multiset(sl.inflight.Keys)
    requires e.RunFrame? ==> e.execute.requestId in sl.inflight && sl.inflight[e.execute.requestId] == e.mode
    ensures ConnInv(sl, Worked(c, id, sched, e))
  {
    var sched', out := S.Step(sched, e).0, S.Step(sched, e).1;
    S.StepFlow(sched, e);
    S.StepInv(sched, e);
    S.StepGivesUp(sched, e);
    S.StepModes(sched, e, sl.inflight);
    StepAnswers(sched, e);
    AnsweredConcat(c.up, out);
    InterimConcat(c.up, out, id);
    Balance(PendingIds(sl), Carried(c.down, id), S.Offered(e), S.Held(sched), Answered(c.up),
            S.Held(sched'), Answered(out), multiset(sl.inflight.Keys));
    Balance(PendingIds(sl), Carried(c.down, id), S.Offered(e), S.Held(sched), Answered(c.up),
            S.Owed(sched'), Answered(out), multiset(sl.inflight.Keys));
    WorkedShape(sl, id, c, sched', out, Worked(c, id, sched, e));
  }

  lemma WorkedShape(sl: Slice, id: SessionId, c: Conn, sched': S.Sched, out: seq<Frame>, c': Conn)
    requires sl.owner == Some(id) && sl.holding && !sl.unsent
    requires Opens(c.down) == [] && Interim(c.up + out, id) && OpenedOk(c.up + out) && ModesOk(sl, id, c.down)
    requires c' == c.(up := c.up + out,
                      worker := if sched'.ended.None? then Serving(id, sched')
                                else if sched'.ended.value.Lost? then Gone(Some(sched'))
                                else Leaving(id, S.ErrorOf(sched'.ended.value), Some(sched')))
    requires S.Inv(sched') && S.GivesUpOwn(sched') && S.ModesIn(sched', sl.inflight)
    requires sched'.ended.None? ==>
               PendingIds(sl) + Carried(c.down, id) + S.Held(sched') + Answered(c.up + out)
               == multiset(sl.inflight.Keys)
    requires PendingIds(sl) + Carried(c.down, id) + S.Owed(sched') + Answered(c.up + out) <= multiset(sl.inflight.Keys)
             || sched'.ended.None?
    ensures ConnInv(sl, c')
  {
    hide S.Inv, S.Held, S.Owed, Carried, Answered, Opens, Interim, OpenedOk, ModesOk;
    if sched'.ended.None? {
      assert ServingOk(sl, id, c');
    } else {
      LeftFresh(sched', sl.inflight);
      assert LeavingOk(sl, id, c');
    }
  }

  lemma LeftFresh(l: S.Sched, modes: map<ExecId, Mode>)
    requires S.ModesIn(l, modes)
    ensures LeftModes(l, modes)
  {
  }

  // Taking a frame off a channel.

  lemma PopDown(down: seq<Frame>, id: SessionId)
    requires down != []
    ensures Carried(down, id) == Carried(down[1..], id)
            + (if down[0].SessionRun? && down[0].sessionId == id
               then multiset{down[0].execute.requestId} else multiset{})
    ensures Opens(down) == (if down[0].SessionOpen? then [down[0].sessionId] else []) + Opens(down[1..])
  {
  }

  lemma PopModes(sl: Slice, id: SessionId, down: seq<Frame>)
    requires down != [] && ModesOk(sl, id, down)
    ensures ModesOk(sl, id, down[1..])
  {
    assert forall i :: 0 <= i < |down| - 1 ==> down[1..][i] == down[i + 1];
  }

  lemma Regroup(a: multiset<ExecId>, b: multiset<ExecId>, c: multiset<ExecId>, d: multiset<ExecId>, e: multiset<ExecId>)
    ensures a + (b + c) + d + e == a + b + c + d + e
  {
  }

  lemma OfferedHead(f: Frame, id: SessionId, e: S.Event)
    requires EventOf(f, id) == Some(e)
    ensures S.Offered(e) == if f.SessionRun? && f.sessionId == id then multiset{f.execute.requestId} else multiset{}
    ensures e.RunFrame? ==> f.SessionRun? && f.sessionId == id && e.execute == f.execute && e.mode == f.mode
    ensures !e.JobResult? && !e.JobAbort? && !f.SessionOpen?
  {
  }

  /** A frame for this session reaches the loop. */
  lemma ReceiveEvent(sl: Slice, id: SessionId, c: Conn, e: S.Event)
    requires sl.owner == Some(id) && ServingOk(sl, id, c) && c.down != [] && EventOf(c.down[0], id) == Some(e)
    ensures ConnInv(sl, Worked(c.(down := c.down[1..]), id, c.worker.sched, e))
  {
    hide S.Inv, S.ModesIn, S.Held, S.Offered, Carried, Answered, Opens, Interim, OpenedOk, EventOf;
    var c' := c.(down := c.down[1..]);
    OfferedHead(c.down[0], id, e);
    PopDown(c.down, id);
    PopModes(sl, id, c.down);
    Regroup(PendingIds(sl), Carried(c'.down, id), S.Offered(e), S.Held(c.worker.sched), Answered(c.up));
    WorkedInv(sl, id, c', c.worker.sched, e);
  }

  /** A frame that does not concern the session is read past. */
  lemma ReceiveIgnored(sl: Slice, id: SessionId, c: Conn)
    requires ServingOk(sl, id, c) && c.down != [] && EventOf(c.down[0], id) == None
    ensures ServingOk(sl, id, c.(down := c.down[1..]))
  {
    PopDown(c.down, id);
    PopModes(sl, id, c.down);
  }

  lemma ReceiveServing(sl: Slice, id: SessionId, c: Conn, spawnError: Option<string>, home: Option<string>)
    requires sl.owner == Some(id) && ServingOk(sl, id, c) && c.down != []
    ensures ConnInv(sl, Receive(c, spawnError, home))
  {
    match EventOf(c.down[0], id)
    case Some(e) => ReceiveEvent(sl, id, c, e);
    case None => ReceiveIgnored(sl, id, c);
  }

  lemma ReceiveOpen(sl: Slice, id: SessionId, c: Conn, spawnError: Option<string>, home: Option<string>)
    requires sl.owner == Some(id) && WaitingOk(sl, id, c) && c.down != [] && c.down[0].SessionOpen?
    ensures ConnInv(sl, Receive(c, spawnError, home))
  {
    PopDown(c.down, id);
    var c' := Receive(c, spawnError, home);
    assert Opens(c.down)[0] == c.down[0].sessionId;
    assert Opens(c'.down) == [];
    assert Answered(c'.up) == multiset{};
    assert forall i :: 0 <= i < |c'.down| ==> c'.down[i] == c.down[i + 1];
    NoCarried(c'.down, id);
    if spawnError.Some? {
      assert LeavingOk(sl, id, c');
    } else {
      assert ServingOk(sl, id, c');
    }
  }

  lemma {:induction false} NoCarried(down: seq<Frame>, id: SessionId)
    requires Carried(down, id) == multiset{}
    ensures forall i :: 0 <= i < |down| && down[i].SessionRun? ==> down[i].sessionId != id
  {
    if down != [] {
      NoCarried(down[1..], id);
      forall i | 0 <= i < |down| && down[i].SessionRun? ensures down[i].sessionId != id {
        if i > 0 {
          assert down[i] == down[1..][i - 1];
        }
      }
    }
  }

  /** Before its report is sent or read, a worker that has left its loop reads frames past. */
  lemma ReceiveLeaving(sl: Slice, id: SessionId, c: Conn)
    requires c.down != []
    ensures LeavingOk(sl, id, c) ==> LeavingOk(sl, id, c.(down := c.down[1..]))
    ensures ReportedOk(sl, id, c) ==> ReportedOk(sl, id, c.(down := c.down[1..]))
    ensures WaitingOk(sl, id, c) && !c.down[0].SessionOpen? ==> WaitingOk(sl, id, c.(down := c.down[1..]))
  {
    PopDown(c.down, id);
    if ModesOk(sl, id, c.down) {
      PopModes(sl, id, c.down);
    }
  }

  lemma ReceiveInv(sl: Slice, c: Conn, spawnError: Option<string>, home: Option<string>)
    requires ConnInv(sl, c) && c.down != []
    ensures ConnInv(sl, Receive(c, spawnError, home))
  {
    match sl.owner
    case None => PopDown(c.down, SessionId(""));
    case Some(id) =>
      PopDown(c.down, id);
      ReceiveLeaving(sl, id, c);
      if WaitingOk(sl, id, c) && c.down[0].SessionOpen? {
        ReceiveOpen(sl, id, c, spawnError, home);
      } else if ServingOk(sl, id, c) {
        ReceiveServing(sl, id, c, spawnError, home);
      }
  }

  /** Events of the session loop that no frame causes. */
  predicate Internal(e: S.Event) {
    e.Admission? || e.JobResult? || e.JobAbort? || e.Disconnect? || e.ShellExit?
  }

  lemma ServingIs(sl: Slice, c: Conn)
    requires ConnInv(sl, c) && c.worker.Serving?
    ensures sl.owner == Some(c.worker.id) && ServingOk(sl, c.worker.id, c)
  {
  }

  lemma WorkInv(sl: Slice, c: Conn, e: S.Event)
    requires ConnInv(sl, c) && c.worker.Serving? && Internal(e) && S.Legal(c.worker.sched, e)
    ensures ConnInv(sl, Worked(c, c.worker.id, c.worker.sched, e))
  {
    hide ConnInv, S.Inv, S.ModesIn, S.Held, Carried, Answered, Opens, Interim, OpenedOk, ModesOk;
    var id := c.worker.id;
    ServingIs(sl, c);
    Regroup(PendingIds(sl), Carried(c.down, id), multiset{}, S.Held(c.worker.sched), Answered(c.up));
    WorkedInv(sl, id, c, c.worker.sched, e);
  }

  /** The report is written: it is the last frame of its channel. */
  lemma ReportSent(sl: Slice, id: SessionId, c: Conn, c': Conn, f: Frame)
    requires sl.owner == Some(id) && LeavingOk(sl, id, c) && c.worker.Leaving?
    requires f.SessionClosed? && f.sessionId == id
    requires c' == c.(up := c.up + [f], worker := c'.worker)
    requires c'.worker == Gone(c.worker.left) || c'.worker.Awaiting?
    requires f.reusable ==> c'.worker.Awaiting?
    ensures ReportedOk(sl, id, c')
  {
    hide Carried, Opens, ModesOk, Interim, Answered, S.Inv, S.Owed, LeftModes;
    PushFrame(c.up, f, id);
    assert c'.up[..|c.up|] == c.up;
    assert Answered(c'.up) == Answered(c.up);
    assert HeldBy(c'.worker) <= HeldBy(c.worker);
    assert Whereabouts(sl, id, c') <= Whereabouts(sl, id, c);
  }

  lemma LeavingIs(sl: Slice, c: Conn)
    requires ConnInv(sl, c) && c.worker.Leaving?
    ensures sl.owner == Some(c.worker.id) && LeavingOk(sl, c.worker.id, c)
  {
  }

  lemma ReportInv(sl: Slice, c: Conn, resetFailed: bool, exiting: bool, ok: bool)
    requires ConnInv(sl, c)
    ensures ConnInv(sl, Report(c, resetFailed, exiting, ok))
  {
    hide WaitingOk, ServingOk, LeavingOk, ReportedOk, FreeOk, LeakedOk;
    if c.worker.Leaving? {
      var id, c' := c.worker.id, Report(c, resetFailed, exiting, ok);
      LeavingIs(sl, c);
      if ok {
        ReportSent(sl, id, c, c', c'.up[|c.up|]);
      } else {
        LeavingGone(sl, id, c);
      }
    }
  }

  lemma LeavingGone(sl: Slice, id: SessionId, c: Conn)
    requires LeavingOk(sl, id, c) && c.worker.Leaving?
    ensures LeavingOk(sl, id, c.(worker := Gone(c.worker.left)))
  {
    hide Carried, Opens, ModesOk, Interim, Answered, S.Inv, S.Owed, LeftModes;
    assert HeldBy(c.worker) == HeldBy(Gone(c.worker.left));
  }

  lemma CrashInv(sl: Slice, c: Conn)
    requires ConnInv(sl, c)
    ensures ConnInv(sl, Crash(c))
  {
    if c.worker.Serving? {
      ServingIs(sl, c);
      ServingLost(sl, c.worker.id, c);
    } else if c.worker.Leaving? {
      LeavingIs(sl, c);
      LeavingGone(sl, c.worker.id, c);
    }
  }

  lemma ServingLost(sl: Slice, id: SessionId, c: Conn)
    requires ServingOk(sl, id, c)
    ensures LeavingOk(sl, id, c.(worker := Gone(Some(c.worker.sched))))
  {
    hide Carried, Opens, ModesOk, Interim, Answered, S.Inv, S.Held;
  }

  // --------------------------------------------------------- server-side steps

  /** A change to the accounts that leaves the worker, the channel to the server and the session's standing alone. */
  lemma Transfer(sl: Slice, sl': Slice, id: SessionId, c: Conn, c': Conn)
    requires sl.owner == Some(id) && sl'.owner == Some(id) && ConnInv(sl, c)
    requires sl'.holding == sl.holding && sl'.unsent == sl.unsent && sl'.present == sl.present
    requires c'.worker == c.worker && c'.up == c.up && Opens(c'.down) == Opens(c.down)
    requires WaitingOk(sl, id, c) ==> WaitingOk(sl', id, c')
    requires Whereabouts(sl, id, c) == multiset(sl.inflight.Keys) ==>
               Whereabouts(sl', id, c') == multiset(sl'.inflight.Keys)
    requires Whereabouts(sl, id, c) <= multiset(sl.inflight.Keys) ==>
               Whereabouts(sl', id, c') <= multiset(sl'.inflight.Keys)
    requires ModesOk(sl, id, c.down) ==> ModesOk(sl', id, c'.down)
    requires c.worker.Serving? && S.ModesIn(c.worker.sched, sl.inflight) ==> S.ModesIn(c.worker.sched, sl'.inflight)
    requires LeftOk(c.worker, sl.inflight) ==> LeftOk(c.worker, sl'.inflight)
    ensures ConnInv(sl', c')
  {
    if ServingOk(sl, id, c) {
      assert ServingOk(sl', id, c');
    } else if LeavingOk(sl, id, c) {
      assert LeavingOk(sl', id, c');
    } else if ReportedOk(sl, id, c) {
      assert ReportedOk(sl', id, c');
    }
  }

  lemma PushModes(sl: Slice, id: SessionId, down: seq<Frame>, f: Frame)
    requires ModesOk(sl, id, down) && !(f.SessionRun? && f.sessionId == id)
    ensures ModesOk(sl, id, down + [f])
  {
    assert forall i :: 0 <= i < |down| + 1 && i != |down| ==> (down + [f])[i] == down[i];
  }

  lemma PushControlOwned(sl: Slice, id: SessionId, c: Conn, f: Frame)
    requires sl.owner == Some(id) && ConnInv(sl, c)
    requires !f.SessionOpen? && !(f.SessionRun? && f.sessionId == id)
    ensures ConnInv(sl, c.(down := c.down + [f]))
  {
    var c' := c.(down := c.down + [f]);
    PushFrame(c.down, f, id);
    assert Carried(c'.down, id) == Carried(c.down, id);
    if ModesOk(sl, id, c.down) {
      PushModes(sl, id, c.down, f);
    }
    Transfer(sl, sl, id, c, c');
  }

  /** Writing a Cancel or SessionClose, or a command of another session. */
  lemma PushControlInv(sl: Slice, c: Conn, f: Frame)
    requires ConnInv(sl, c) && !f.SessionOpen? && !(f.SessionRun? && sl.owner == Some(f.sessionId))
    ensures ConnInv(sl, c.(down := c.down + [f]))
  {
    match sl.owner
    case None => PushFrame(c.down, f, SessionId(""));
    case Some(id) => PushControlOwned(sl, id, c, f);
  }

  lemma PushOpenInv(sl: Slice, c: Conn, f: Frame)
    requires ConnInv(sl, c) && sl.owner.Some? && sl.unsent && f.SessionOpen? && f.sessionId == sl.owner.value
    ensures ConnInv(sl.(unsent := false), c.(down := c.down + [f]))
  {
    PushFrame(c.down, f, sl.owner.value);
    assert WaitingOk(sl.(unsent := false), sl.owner.value, c.(down := c.down + [f]));
  }

  lemma PushRunModes(sl: Slice, id: SessionId, down: seq<Frame>, execute: Execute, mode: Mode)
    requires ModesOk(sl, id, down) && sl.pending == Some((execute.requestId, mode))
    ensures ModesOk(sl.(pending := None), id, down + [SessionRun(id, execute, mode)])
  {
    assert forall i :: 0 <= i < |down| ==> (down + [SessionRun(id, execute, mode)])[i] == down[i];
  }

  /** Writing the registered command of the owning session. */
  lemma PushRunInv(sl: Slice, id: SessionId, c: Conn, execute: Execute, mode: Mode)
    requires ConnInv(sl, c) && sl.owner == Some(id) && sl.pending == Some((execute.requestId, mode))
    ensures ConnInv(sl.(pending := None), c.(down := c.down + [SessionRun(id, execute, mode)]))
  {
    var f := SessionRun(id, execute, mode);
    PushFrame(c.down, f, id);
    if ModesOk(sl, id, c.down) {
      PushRunModes(sl, id, c.down, execute, mode);
    }
    MoveOver(multiset{execute.requestId}, Carried(c.down, id), HeldBy(c.worker), Answered(c.up));
    Transfer(sl, sl.(pending := None), id, c, c.(down := c.down + [f]));
  }

  lemma MoveOver(p: multiset<ExecId>, carried: multiset<ExecId>, held: multiset<ExecId>, up: multiset<ExecId>)
    ensures p + carried + held + up == multiset{} + (carried + p) + held + up
  {
  }

  lemma AddOne(a: multiset<ExecId>, carried: multiset<ExecId>, held: multiset<ExecId>, up: multiset<ExecId>,
               total: multiset<ExecId>)
    ensures multiset{} + carried + held + up == total ==> a + carried + held + up == total + a
    ensures multiset{} + carried + held + up <= total ==> a + carried + held + up <= total + a
  {
    assert a + carried + held + up == multiset{} + carried + held + up + a;
  }

  /** A command is registered: it is in flight, and about to be written. */
  lemma RegisteredInv(sl: Slice, c: Conn, rid: ExecId, mode: Mode)
    requires ConnInv(sl, c) && sl.owner.Some? && sl.active && sl.present && sl.pending.None? && rid !in sl.inflight
    ensures ConnInv(sl.(inflight := sl.inflight[rid := mode], pending := Some((rid, mode))), c)
  {
    hide ConnInv, Carried, Answered, Opens, Interim, OpenedOk, S.Inv, S.Held;
    var id := sl.owner.value;
    var sl' := sl.(inflight := sl.inflight[rid := mode], pending := Some((rid, mode)));
    assert sl'.inflight.Keys == sl.inflight.Keys + {rid};
    assert multiset(sl'.inflight.Keys) == multiset(sl.inflight.Keys) + multiset{rid};
    AddOne(multiset{rid}, Carried(c.down, id), HeldBy(c.worker), Answered(c.up), multiset(sl.inflight.Keys));
    Transfer(sl, sl', id, c, c);
  }

  /** Outside the waiting phase the record's state may change, as long as a serving worker's session holds it. */
  lemma RestateInv(sl: Slice, sl': Slice, c: Conn)
    requires ConnInv(sl, c) && sl.owner.Some?
    requires sl' == sl.(present := sl'.present, holding := sl'.holding, active := sl'.active)
    requires sl.holding ==> sl'.holding
    requires sl'.active ==> sl.active
    requires sl'.present ==> sl.present
    ensures ConnInv(sl', c)
  {
    var id := sl.owner.value;
    assert Whereabouts(sl', id, c) == Whereabouts(sl, id, c);
    assert ModesOk(sl, id, c.down) ==> ModesOk(sl', id, c.down);
    if WaitingOk(sl, id, c) {
      assert WaitingOk(sl', id, c);
    } else if ServingOk(sl, id, c) {
      assert ServingOk(sl', id, c);
    } else if LeavingOk(sl, id, c) {
      assert LeavingOk(sl', id, c);
    } else if ReportedOk(sl, id, c) {
      assert ReportedOk(sl', id, c);
    } else {
      assert LeakedOk(sl', c);
    }
  }

  /** Only the owning session's frames ever come up the channel. */
  lemma UpFrame(sl: Slice, c: Conn)
    requires ConnInv(sl, c) && c.up != []
    ensures sl.owner.Some?
    ensures c.up[0].ResultOf?
            || ((c.up[0].SessionReady? || c.up[0].SessionClosed?) && c.up[0].sessionId == sl.owner.value)
    ensures c.up[0].SessionClosed? ==> |c.up| == 1 && ReportedOk(sl, sl.owner.value, c)
  {
    hide S.Inv, S.Held, S.Owed, Carried, Answered, Opens, ModesOk, LeftOk, S.ModesIn;
  }

  lemma PopUp(up: seq<Frame>, id: SessionId)
    requires up != []
    ensures Answered(up)
            == (if up[0].ResultOf? then multiset{up[0].result.requestId} else multiset{}) + Answered(up[1..])
    ensures Interim(up, id) ==> Interim(up[1..], id)
    ensures OpenedOk(up) ==> OpenedOk(up[1..])
    ensures |up| > 1 && Interim(up[..|up| - 1], id) ==> Interim(up[1..][..|up| - 2], id)
  {
    assert forall i :: 0 <= i < |up| - 1 ==> up[1..][i] == up[i + 1];
    if |up| > 1 {
      var rest := up[1..][..|up| - 2];
      assert forall i :: 0 <= i < |rest| ==> rest[i] == up[..|up| - 1][i + 1];
    }
  }

  lemma ReadyServing(sl: Slice, sl': Slice, id: SessionId, c: Conn, c': Conn)
    requires c.up != [] && c.up[0].SessionReady? && c' == c.(up := c.up[1..])
    requires sl' == sl.(holding := sl'.holding, active := sl'.active)
    requires c.up[0].error.None? ==> sl'.holding == sl.holding
    requires ServingOk(sl, id, c)
    ensures ServingOk(sl', id, c')
  {
    hide Carried, Opens, ModesOk, S.Inv, S.ModesIn, S.Held, Answered, Interim;
    PopUp(c.up, id);
    SameModes(sl, sl', id, c.down);
    assert Whereabouts(sl', id, c') == Whereabouts(sl, id, c);
  }

  lemma SameModes(sl: Slice, sl': Slice, id: SessionId, down: seq<Frame>)
    requires sl'.inflight == sl.inflight && sl'.pending == sl.pending
    ensures ModesOk(sl', id, down) == ModesOk(sl, id, down)
  {
  }

  lemma ReadyLeaving(sl: Slice, sl': Slice, id: SessionId, c: Conn, c': Conn)
    requires c.up != [] && c.up[0].SessionReady? && c' == c.(up := c.up[1..])
    requires sl' == sl.(holding := sl'.holding, active := sl'.active)
    ensures LeavingOk(sl, id, c) ==> LeavingOk(sl', id, c')
  {
    hide Carried, Opens, ModesOk, S.Held, Answered, Interim;
    PopUp(c.up, id);
    SameModes(sl, sl', id, c.down);
    assert Whereabouts(sl', id, c') == Whereabouts(sl, id, c);
  }

  lemma ReadyReported(sl: Slice, sl': Slice, id: SessionId, c: Conn, c': Conn)
    requires c.up != [] && c.up[0].SessionReady? && c' == c.(up := c.up[1..])
    requires sl' == sl.(holding := sl'.holding, active := sl'.active)
    ensures ReportedOk(sl, id, c) ==> ReportedOk(sl', id, c')
  {
    hide Carried, Opens, ModesOk, S.Held, Answered, Interim;
    PopUp(c.up, id);
    SameModes(sl, sl', id, c.down);
    assert Whereabouts(sl', id, c') == Whereabouts(sl, id, c);
  }

  lemma DeliverReadyInv(sl: Slice, sl': Slice, c: Conn)
    requires ConnInv(sl, c) && c.up != [] && c.up[0].SessionReady?
    requires sl' == sl.(holding := sl'.holding, active := sl'.active)
    requires c.up[0].error.None? ==> sl'.holding == sl.holding
    ensures ConnInv(sl', c.(up := c.up[1..]))
  {
    var id, c' := sl.owner.value, c.(up := c.up[1..]);
    hide ServingOk, LeavingOk, ReportedOk;
    if ServingOk(sl, id, c) {
      ReadyServing(sl, sl', id, c, c');
    } else {
      ReadyLeaving(sl, sl', id, c, c');
      ReadyReported(sl, sl', id, c, c');
    }
  }

  lemma Distinct(keys: set<ExecId>, rest: multiset<ExecId>, rid: ExecId)
    requires multiset{rid} + rest <= multiset(keys)
    ensures rid in keys && rid !in rest
    ensures rest <= multiset(keys - {rid})
    ensures multiset{rid} + rest == multiset(keys) ==> rest == multiset(keys - {rid})
  {
    assert (multiset{rid} + rest)[rid] <= multiset(keys)[rid];
    assert rid in keys;
    assert keys == (keys - {rid}) + {rid};
    assert multiset(keys) == multiset(keys - {rid}) + multiset{rid};
    assert multiset{rid} + rest - multiset{rid} == rest;
    assert multiset(keys) - multiset{rid} == multiset(keys - {rid});
  }

  lemma {:induction false} CarriedHas(down: seq<Frame>, id: SessionId, i: nat)
    requires i < |down| && down[i].SessionRun? && down[i].sessionId == id
    ensures down[i].execute.requestId in Carried(down, id)
  {
    if i > 0 {
      assert down[i] == down[1..][i - 1];
      CarriedHas(down[1..], id, i - 1);
    }
  }

  lemma HeldModes(sched: S.Sched, modes: map<ExecId, Mode>, rid: ExecId)
    requires S.Inv(sched) && S.ModesIn(sched, modes) && rid !in S.Held(sched)
    ensures S.ModesIn(sched, modes - {rid})
  {
    forall i | 0 <= i < |sched.queued| ensures sched.queued[i].execute.requestId != rid {
      S.JobIdsIn(sched.queued, sched.queued[i].execute.requestId);
      assert S.Queued(sched.queued, sched.queued[i].execute.requestId);
    }
  }

  /** The rest of the accounts never mentions an answered command. */
  lemma AnsweredModes(sl: Slice, id: SessionId, c: Conn, rid: ExecId)
    requires rid !in PendingIds(sl) && rid !in Carried(c.down, id) && rid !in HeldBy(c.worker)
    ensures var sl' := sl.(inflight := sl.inflight - {rid});
            && (ModesOk(sl, id, c.down) ==> ModesOk(sl', id, c.down))
            && (c.worker.Serving? && S.Inv(c.worker.sched) && S.ModesIn(c.worker.sched, sl.inflight)
                ==> S.ModesIn(c.worker.sched, sl'.inflight))
            && (LeftOk(c.worker, sl.inflight) ==> LeftOk(c.worker, sl'.inflight))
  {
    hide S.Inv, S.ModesIn, S.Held, Carried, LeftModes, S.Owed;
    forall i | 0 <= i < |c.down| && c.down[i].SessionRun? && c.down[i].sessionId == id
      ensures c.down[i].execute.requestId != rid
    {
      CarriedHas(c.down, id, i);
    }
    if c.worker.Serving? && S.Inv(c.worker.sched) && S.ModesIn(c.worker.sched, sl.inflight) {
      HeldModes(c.worker.sched, sl.inflight, rid);
    }
    if LeftBy(c.worker).Some? && LeftOk(c.worker, sl.inflight) {
      OwedModes(LeftBy(c.worker).value, sl.inflight, rid);
    }
  }

  /** The command given up is running, so it is not queued, and it is the stateful one. */
  lemma OwedModes(l: S.Sched, modes: map<ExecId, Mode>, rid: ExecId)
    requires S.Inv(l) && S.GivesUpOwn(l) && LeftModes(l, modes) && rid !in S.Owed(l)
    ensures LeftModes(l, modes - {rid})
  {
    hide S.QueueBook, S.RunningBook, S.InOrder, S.Barrier, S.JobIds;
    forall i | 0 <= i < |l.queued| ensures l.queued[i].execute.requestId != rid {
      var q := l.queued[i].execute.requestId;
      assert S.Queued(l.queued, q);
      S.JobIdsIn(l.queued, q);
      assert q in S.Held(l) && S.GivenUp(l) != Some(q);
    }
  }

  /** Reading a Result: the command was in flight, and its answer was the only trace of it left. */
  lemma DeliverResultInv(sl: Slice, c: Conn, rid: ExecId)
    requires ConnInv(sl, c) && c.up != [] && c.up[0].ResultOf? && c.up[0].result.requestId == rid
    ensures rid in sl.inflight
    ensures ConnInv(sl.(inflight := sl.inflight - {rid}), c.(up := c.up[1..]))
  {
    var id, c' := sl.owner.value, c.(up := c.up[1..]);
    var sl' := sl.(inflight := sl.inflight - {rid});
    PopUp(c.up, id);
    var rest := Whereabouts(sl', id, c');
    assert Whereabouts(sl, id, c) == multiset{rid} + rest;
    Distinct(sl.inflight.Keys, rest, rid);
    assert sl'.inflight.Keys == sl.inflight.Keys - {rid};
    AnsweredModes(sl, id, c, rid);
    if ServingOk(sl, id, c) {
      assert ServingOk(sl', id, c');
    } else if LeavingOk(sl, id, c) {
      assert LeavingOk(sl', id, c');
    } else {
      assert ReportedOk(sl', id, c');
    }
  }

  /** Reading the report: the worker is free again, or gone. */
  lemma DeliverClosedInv(sl: Slice, sl': Slice, c: Conn)
    requires ConnInv(sl, c) && c.up != [] && c.up[0].SessionClosed?
    requires sl'.owner.None? && (sl'.idle ==> c.up[0].reusable)
    ensures ConnInv(sl', c.(up := c.up[1..]))
  {
    LastFrame(sl, c);
    hide S.Inv, S.Held, S.Owed, Carried, Answered, Opens, ModesOk, LeftOk, S.ModesIn;
    assert FreeOk(sl', c.(up := []));
  }

  lemma LastFrame(sl: Slice, c: Conn)
    requires ConnInv(sl, c) && c.up != [] && c.up[0].SessionClosed?
    ensures c.up[1..] == [] && sl.owner.Some? && ReportedOk(sl, sl.owner.value, c)
  {
    hide ConnInv, S.Inv, S.Held, S.Owed, Carried, Answered, Opens, ModesOk, LeftOk, S.ModesIn;
    UpFrame(sl, c);
  }

  /** Reading the report of a session the server has forgotten. */
  lemma DeliverLateInv(sl: Slice, c: Conn)
    requires ConnInv(sl, c) && c.up != [] && c.up[0].SessionClosed? && !sl.present
    ensures ConnInv(sl, c.(up := c.up[1..]))
  {
    LastFrame(sl, c);
    hide S.Inv, S.Held, S.Owed, Carried, Answered, Opens, ModesOk, LeftOk, S.ModesIn;
    assert LeakedOk(sl, c.(up := []));
  }
}
