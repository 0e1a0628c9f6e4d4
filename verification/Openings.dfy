/** What a session's loop was opened with, and what its commands are: over every
    run of the system, back to the requests the server took. */
module Openings {
  import opened Wrappers
  import opened Protocol
  import S = Scheduler
  import P = ServerPool
  import opened Link
  import opened System
  import opened Composition
  import opened Frames
  import N = RunsOnce

  // ----------------------------------------------------------------- at the loop

  /** No stateful command before line `t` of the book was started. */
  ghost predicate NoneBefore(book: seq<S.Ticket>, t: nat) {
    forall u :: 0 <= u < t && u < |book| ==> !(book[u].mode.Stateful? && book[u].fate.Started?)
  }

  /** No stateful command has finished. */
  ghost predicate NoneDone(book: seq<S.Ticket>) {
    forall u :: 0 <= u < |book| && book[u].mode.Stateful? && book[u].fate.Started? ==> !book[u].fate.done
  }

  /** What a started command was given is the command it is, under the session's
      identity; with no stateful command started before it, in the first shell state. */
  ghost predicate GivenFirst(book: seq<S.Ticket>, t: nat, init: S.Shell, dropTo: Option<DropTo>)
    requires t < |book|
  {
    book[t].fate.Started? ==>
      var given := book[t].fate.given;
      && given == book[t].execute.(workingDir := given.workingDir, env := given.env, dropTo := dropTo)
      && (NoneBefore(book, t) ==> given.workingDir == init.dir && given.env == init.env)
  }

  ghost predicate Begun(s: S.Sched, init: S.Shell, dropTo: Option<DropTo>) {
    && s.dropTo == dropTo
    && (forall t :: 0 <= t < |s.book| ==> GivenFirst(s.book, t, init, dropTo))
    && (NoneDone(s.book) ==> s.current == init)
  }

  lemma LaunchBegun(s: S.Sched, init: S.Shell, dropTo: Option<DropTo>)
    requires S.Inv(s) && s.queued != [] && Begun(s, init, dropTo)
    ensures Begun(S.Launch(s), init, dropTo)
  {
    hide S.Shape, S.RunningBook, S.Barrier;
    var k, book, book' := s.queued[0].ticket, s.book, S.Launch(s).book;
    assert book[k].fate.Waiting?;
    assert NoneDone(book') ==> NoneDone(book) by {
      forall u | 0 <= u < |book| && book[u].fate.Started? ensures book'[u] == book[u] {
      }
    }
    if NoneBefore(book, k) {
      assert NoneDone(book);
    }
    forall t | 0 <= t < |book'| ensures GivenFirst(book', t, init, dropTo) {
      assert GivenFirst(book, t, init, dropTo);
      if NoneBefore(book', t) {
        assert NoneBefore(book, t) by {
          forall u | 0 <= u < t && u < |book| && book[u].fate.Started? ensures book'[u] == book[u] {
          }
        }
      }
    }
  }

  /** A step that starts nothing and finishes no stateful command. */
  lemma QuietBegun(s: S.Sched, s': S.Sched, init: S.Shell, dropTo: Option<DropTo>)
    requires Begun(s, init, dropTo) && s'.dropTo == s.dropTo && s'.current == s.current
    requires |s.book| <= |s'.book|
    requires forall t :: 0 <= t < |s.book| ==>
               && s'.book[t].execute == s.book[t].execute && s'.book[t].mode == s.book[t].mode
               && (s'.book[t].fate.Started? <==> s.book[t].fate.Started?)
               && (s.book[t].fate.Started? ==> s'.book[t].fate.given == s.book[t].fate.given)
               && (s.book[t].fate.Started? && s.book[t].fate.done ==> s'.book[t].fate.done)
    requires forall t :: |s.book| <= t < |s'.book| ==> !s'.book[t].fate.Started?
    ensures Begun(s', init, dropTo)
  {
    forall t | 0 <= t < |s'.book| ensures GivenFirst(s'.book, t, init, dropTo) {
      if t < |s.book| {
        assert GivenFirst(s.book, t, init, dropTo);
        if NoneBefore(s'.book, t) {
          assert NoneBefore(s.book, t) by {
            forall u | 0 <= u < t ensures s'.book[u].fate.Started? <==> s.book[u].fate.Started? {
            }
          }
        }
      }
    }
    if NoneDone(s'.book) {
      assert NoneDone(s.book) by {
        forall u | 0 <= u < |s.book| ensures s'.book[u].mode == s.book[u].mode {
        }
      }
    }
  }

  lemma {:induction false} AdmitBegun(s: S.Sched, setup: S.Setup, init: S.Shell, dropTo: Option<DropTo>)
    requires S.Inv(s) && Begun(s, init, dropTo)
    ensures Begun(S.Admit(s, setup).0, init, dropTo)
    decreases |s.queued|
  {
    hide S.Inv, Begun;
    if s.ended.Some? || s.stateful.Some? || |s.running| >= S.LIMIT || s.queued == [] {
    } else {
      LaunchBegun(s, init, dropTo);
      S.LaunchInv(s);
      if s.queued[0].mode.Parallel? {
        AdmitBegun(S.Launch(s), setup, init, dropTo);
      } else {
        SpoilBegun(s, init, dropTo);
        match setup
        case Prepared => SameBegun(S.Launch(s), S.Admit(s, setup).0, init, dropTo);
        case PrepareFailed(_) =>
        case WriteFailed(_) => SameBegun(S.Spoil(s), S.Admit(s, setup).0, init, dropTo);
      }
    }
  }

  lemma SameBegun(s: S.Sched, s': S.Sched, init: S.Shell, dropTo: Option<DropTo>)
    requires Begun(s, init, dropTo) && s'.book == s.book && s'.current == s.current && s'.dropTo == s.dropTo
    ensures Begun(s', init, dropTo)
  {
  }

  lemma SpoilBegun(s: S.Sched, init: S.Shell, dropTo: Option<DropTo>)
    requires S.Inv(s) && s.queued != [] && Begun(s, init, dropTo)
    ensures Begun(S.Spoil(s), init, dropTo)
  {
    hide Begun;
    assert s.book[s.queued[0].ticket].fate.Waiting?;
    QuietBegun(s, S.Spoil(s), init, dropTo);
  }

  lemma CancelBegun(s: S.Sched, rid: ExecId, init: S.Shell, dropTo: Option<DropTo>)
    requires S.Inv(s) && Begun(s, init, dropTo)
    ensures Begun(S.Cancelled(s, rid).0, init, dropTo)
  {
    hide Begun;
    var i := S.Position(s.queued, rid);
    if i < |s.queued| {
      assert s.book[s.queued[i].ticket].fate.Waiting?;
    }
    QuietBegun(s, S.Cancelled(s, rid).0, init, dropTo);
  }

  lemma FinishBegun(s: S.Sched, rid: ExecId, left: Option<S.Shell>, init: S.Shell, dropTo: Option<DropTo>)
    requires S.Inv(s) && rid in s.running && (left.Some? ==> s.stateful == Some(rid)) && Begun(s, init, dropTo)
    ensures Begun(S.Finish(s, rid, left), init, dropTo)
  {
    hide S.Shape, S.QueueBook, S.InOrder, S.Barrier;
    var s', t := S.Finish(s, rid, left), s.running[rid].ticket;
    assert S.IsRunning(s.book[t]);
    var s1 := s'.(current := s.current);
    assert Begun(s1, init, dropTo) by {
      hide Begun;
      QuietBegun(s, s1, init, dropTo);
    }
    if left.Some? {
      assert s'.book[t].mode.Stateful? && s'.book[t].fate.done;
      assert !NoneDone(s'.book);
    }
  }

  lemma CompleteBegun(s: S.Sched, result: ResultFrame, snapshot: Result<S.Shell, string>, sendOk: bool, init: S.Shell,
                      dropTo: Option<DropTo>)
    requires S.Inv(s) && result.requestId in s.running && Begun(s, init, dropTo)
    ensures Begun(S.Complete(s, result, snapshot, sendOk).0, init, dropTo)
  {
    hide S.Inv, Begun, S.Finish;
    var rid := result.requestId;
    var s' := S.Complete(s, result, snapshot, sendOk).0;
    if s.stateful == Some(rid) && snapshot.Err? {
      SameBegun(s, s', init, dropTo);
    } else {
      var left := if s.stateful == Some(rid) then Some(snapshot.value) else None;
      FinishBegun(s, rid, left, init, dropTo);
      SameBegun(S.Finish(s, rid, left), s', init, dropTo);
    }
  }

  lemma StepBegun(s: S.Sched, e: S.Event, init: S.Shell, dropTo: Option<DropTo>)
    requires S.Inv(s) && S.Legal(s, e) && s.ended.None? && Begun(s, init, dropTo)
    ensures Begun(S.Step(s, e).0, init, dropTo)
  {
    hide S.Inv, Begun, S.Admit, S.Cancelled, S.Complete;
    match e
    case Admission(setup) => AdmitBegun(s, setup, init, dropTo);
    case RunFrame(execute, mode) => QuietBegun(s, S.Accept(s, execute, mode).0, init, dropTo);
    case CancelFrame(rid) => CancelBegun(s, rid, init, dropTo);
    case JobResult(result, snapshot, sendOk) => CompleteBegun(s, result, snapshot, sendOk, init, dropTo);
    case _ => SameBegun(s, S.Step(s, e).0, init, dropTo);
  }

  /** Commands of the book that were withdrawn, and running ones flagged, only become so by a cancel for them. */
  ghost predicate Withdraws(s: S.Sched, s': S.Sched, rid: Option<ExecId>) {
    && |s.book| <= |s'.book|
    && (forall t :: 0 <= t < |s.book| ==> s'.book[t].execute == s.book[t].execute && s'.book[t].mode == s.book[t].mode)
    && (forall t :: 0 <= t < |s.book| && s'.book[t].fate.Withdrawn? ==>
          s.book[t].fate.Withdrawn? || Some(s.book[t].execute.requestId) == rid)
    && (forall r :: r in s'.running && s'.running[r].cancelled ==>
          (r in s.running && s.running[r].cancelled) || Some(r) == rid)
  }

  lemma {:induction false} AdmitWithdraws(s: S.Sched, setup: S.Setup)
    ensures Withdraws(s, S.Admit(s, setup).0, None)
    ensures |S.Admit(s, setup).0.book| == |s.book|
    decreases |s.queued|
  {
    if s.ended.None? && s.stateful.None? && |s.running| < S.LIMIT && s.queued != [] && s.queued[0].mode.Parallel? {
      AdmitWithdraws(S.Launch(s), setup);
      WithdrawsOn(s, S.Launch(s), S.Admit(s, setup).0);
    }
  }

  lemma WithdrawsOn(a: S.Sched, b: S.Sched, c: S.Sched)
    requires Withdraws(a, b, None) && Withdraws(b, c, None)
    ensures Withdraws(a, c, None)
  {
  }

  lemma StepWithdraws(s: S.Sched, e: S.Event)
    requires S.Inv(s) && s.ended.None?
    ensures Withdraws(s, S.Step(s, e).0, if e.CancelFrame? then Some(e.requestId) else None)
    ensures var book' := S.Step(s, e).0.book;
            if |book'| == |s.book| then true
            else e.RunFrame? && book' == s.book + [S.Ticket(e.execute, e.mode, S.Waiting)]
  {
    hide S.Inv, S.Admit, S.Cancelled;
    match e
    case Admission(setup) => AdmitWithdraws(s, setup);
    case CancelFrame(rid) => CancelWithdraws(s, rid);
    case _ =>
  }

  lemma CancelWithdraws(s: S.Sched, rid: ExecId)
    requires S.Inv(s)
    ensures Withdraws(s, S.Cancelled(s, rid).0, Some(rid)) && |S.Cancelled(s, rid).0.book| == |s.book|
  {
    hide S.Shape, S.RunningBook, S.InOrder, S.Barrier;
    var i := S.Position(s.queued, rid);
    if i < |s.queued| {
      assert s.book[s.queued[i].ticket].execute.requestId == rid;
    }
  }

  // --------------------------------------------------------------- over a run

  /** At `c` the session was created and at `r` its worker started its shell:
      `init` and `dropTo` are what the creation asked for. */
  ghost predicate OpenedAt(c: Moment, r: Moment, w: WorkerId, id: SessionId, init: S.Shell, dropTo: Option<DropTo>) {
    && c.step.CreateSession? && CreatedAt(c, id, c.step.inputs)
    && r.step.ReceiveFrame? && r.step.w == w && r.step.spawnError == None
    && S.Initial(S.Shell(c.step.inputs.workingDir, c.step.inputs.env), r.step.home, init)
    && dropTo == c.step.inputs.dropTo
  }

  ghost predicate Opened(past: seq<Moment>, w: WorkerId, id: SessionId, init: S.Shell, dropTo: Option<DropTo>) {
    exists c, r :: c in past && r in past && OpenedAt(c, r, w, id, init, dropTo)
  }

  /** Every command of the book was submitted to the session, and cancelled ones were asked to be. */
  ghost predicate Asked(past: seq<Moment>, id: SessionId, s: S.Sched) {
    && (forall t :: 0 <= t < |s.book| ==> Caused(past, SessionRun(id, s.book[t].execute, s.book[t].mode)))
    && (forall t :: 0 <= t < |s.book| && s.book[t].fate.Withdrawn? ==>
          Caused(past, Cancel(s.book[t].execute.requestId)))
    && (forall r :: r in s.running && s.running[r].cancelled ==> Caused(past, Cancel(r)))
  }

  ghost predicate LoopFrom(past: seq<Moment>, w: WorkerId, id: SessionId, s: S.Sched) {
    && (exists init, dropTo :: Opened(past, w, id, init, dropTo) && Begun(s, init, dropTo))
    && Asked(past, id, s)
  }

  /** The error with which a session is over, by how its loop ended. */
  predicate LeavesSaying(left: S.Sched, error: Option<string>) {
    && left.ended.Some?
    && match left.ended.value
       case Lost => false
       case Over => error == None
       case Unwritten(why) => error == Some("could not submit shell command: " + why)
       case Unreadable(_, why) => error == Some("could not read completed shell state: " + why)
       case Stuck(_) => error == Some("stateful command did not stop")
  }

  /** The worker could not start a shell. */
  ghost predicate SpawnFailed(past: seq<Moment>, w: WorkerId, error: Option<string>) {
    error.Some? && exists m :: m in past && m.step.ReceiveFrame? && m.step.w == w && m.step.spawnError == error
  }

  /** The loop a worker is in, or has left and not yet reported, and its session. */
  ghost predicate WorkerFrom(past: seq<Moment>, w: WorkerId, worker: Worker) {
    match worker
    case Serving(id, sched) => LoopFrom(past, w, id, sched)
    case Leaving(id, error, Some(left)) => LoopFrom(past, w, id, left) && LeavesSaying(left, error)
    case Leaving(id, error, None) => SpawnFailed(past, w, error)
    case _ => true
  }

  ghost predicate LoopsFrom(past: seq<Moment>, conns: map<WorkerId, Conn>) {
    forall w :: w in conns ==> WorkerFrom(past, w, conns[w].worker)
  }

  lemma StillOpened(past: seq<Moment>, m: Moment, w: WorkerId, id: SessionId, init: S.Shell, dropTo: Option<DropTo>)
    requires Opened(past, w, id, init, dropTo)
    ensures Opened(past + [m], w, id, init, dropTo)
  {
    hide OpenedAt;
    assert forall n :: n in past ==> n in past + [m];
  }

  lemma StillAsked(past: seq<Moment>, m: Moment, id: SessionId, s: S.Sched)
    requires Asked(past, id, s)
    ensures Asked(past + [m], id, s)
  {
    hide Caused;
    forall f | Caused(past, f) ensures Caused(past + [m], f) {
      StillCaused(past, m, f);
    }
  }

  lemma StillLoop(past: seq<Moment>, m: Moment, w: WorkerId, id: SessionId, s: S.Sched)
    requires LoopFrom(past, w, id, s)
    ensures LoopFrom(past + [m], w, id, s)
  {
    hide Opened, Begun, Asked;
    var init, dropTo :| Opened(past, w, id, init, dropTo) && Begun(s, init, dropTo);
    StillOpened(past, m, w, id, init, dropTo);
    StillAsked(past, m, id, s);
  }

  /** The event comes from a frame the server had reason to write, or from within the worker. */
  ghost predicate EventFrom(past: seq<Moment>, id: SessionId, e: S.Event) {
    && (e.RunFrame? ==> Caused(past, SessionRun(id, e.execute, e.mode)))
    && (e.CancelFrame? ==> Caused(past, Cancel(e.requestId)))
  }

  lemma StepAsked(past: seq<Moment>, id: SessionId, s: S.Sched, e: S.Event)
    requires S.Inv(s) && s.ended.None? && Asked(past, id, s) && EventFrom(past, id, e)
    ensures Asked(past, id, S.Step(s, e).0)
  {
    hide S.Inv, S.Step, Caused;
    StepWithdraws(s, e);
  }

  lemma StepLoop(past: seq<Moment>, w: WorkerId, id: SessionId, s: S.Sched, e: S.Event)
    requires S.Inv(s) && s.ended.None? && S.Legal(s, e) && LoopFrom(past, w, id, s) && EventFrom(past, id, e)
    ensures LoopFrom(past, w, id, S.Step(s, e).0)
  {
    hide S.Inv, S.Step, S.Legal, Opened, Begun, Asked, EventFrom;
    var init, dropTo :| Opened(past, w, id, init, dropTo) && Begun(s, init, dropTo);
    StepBegun(s, e, init, dropTo);
    StepAsked(past, id, s, e);
  }

  lemma StartLoop(past: seq<Moment>, m: Moment, w: WorkerId, f: Frame, home: Option<string>)
    requires f.SessionOpen? && Caused(past, f)
    requires m.step == ReceiveFrame(w, None, home)
    ensures LoopFrom(past + [m], w, f.sessionId, S.Start(S.Shell(f.workingDir, f.env), home, f.dropTo))
  {
    hide CreatedAt, S.Start, S.Initial;
    var id, shell := f.sessionId, S.Shell(f.workingDir, f.env);
    var inputs := P.Inputs(f.workingDir, f.env, f.dropTo);
    var s := S.Start(shell, home, f.dropTo);
    S.StartIs(shell, home, f.dropTo, s.current);
    var c :| c in past && CreatedAt(c, id, inputs);
    CreatedIs(c, id, inputs);
    assert c in past + [m] && m in past + [m];
    assert OpenedAt(c, m, w, id, s.current, f.dropTo);
    assert Opened(past + [m], w, id, s.current, f.dropTo);
    assert Begun(s, s.current, f.dropTo);
  }

  lemma CreatedIs(c: Moment, id: SessionId, inputs: P.Inputs)
    requires CreatedAt(c, id, inputs)
    ensures c.step.CreateSession? && c.step.inputs == inputs
  {
  }

  lemma WorkedLoop(past: seq<Moment>, m: Moment, w: WorkerId, id: SessionId, c: Conn, s: S.Sched, e: S.Event)
    requires S.Inv(s) && s.ended.None? && S.Legal(s, e) && LoopFrom(past, w, id, s) && EventFrom(past, id, e)
    ensures WorkerFrom(past + [m], w, Worked(c, id, s, e).worker)
  {
    hide S.Inv, S.Step, S.Legal, LoopFrom, EventFrom;
    StepLoop(past, w, id, s, e);
    StillLoop(past, m, w, id, S.Step(s, e).0);
  }

  lemma EventSent(past: seq<Moment>, f: Frame, id: SessionId)
    requires Caused(past, f) && EventOf(f, id).Some?
    ensures EventFrom(past, id, EventOf(f, id).value)
  {
    hide Caused;
  }

  lemma ReadLoop(past: seq<Moment>, s: Sys, w: WorkerId, l: Label)
    requires SysInv(s) && w in s.conns && s.conns[w].down != [] && l.ReceiveFrame? && l.w == w
    requires Caused(past, s.conns[w].down[0]) && WorkerFrom(past, w, s.conns[w].worker)
    ensures WorkerFrom(past + [Moment(s, l)], w, Receive(s.conns[w], l.spawnError, l.home).worker)
  {
    hide SysInv, Caused, S.Start, S.Step, LoopFrom, EventFrom;
    var m, c := Moment(s, l), s.conns[w];
    match c.worker
    case Awaiting =>
      if c.down[0].SessionOpen? && l.spawnError.None? {
        StartLoop(past, m, w, c.down[0], l.home);
      }
      assert m in past + [m];
    case Serving(id, sched) =>
      var e := EventOf(c.down[0], id);
      if e.Some? {
        N.InvOf(s, w);
        ServingOn(s, w);
        EventSent(past, c.down[0], id);
        WorkedLoop(past, m, w, id, c.(down := c.down[1..]), sched, e.value);
      } else {
        StillLoop(past, m, w, id, sched);
      }
    case Leaving(_, _, _) => StillWorker(past, m, w, c.worker);
    case Gone(_) =>
  }

  lemma MovedLoop(past: seq<Moment>, s: Sys, l: Label, w: WorkerId, c': Conn)
    requires SysInv(s) && w in s.conns && Moved(s, l, w, c') && ConnFrom(past, w, s.conns[w])
    requires WorkerFrom(past, w, s.conns[w].worker)
    ensures WorkerFrom(past + [Moment(s, l)], w, c'.worker)
  {
    hide SysInv, Caused, Traced, Writes, LoopFrom, Worked, Receive, S.Inv;
    var m, c := Moment(s, l), s.conns[w];
    if c'.worker == c.worker {
      StillWorker(past, m, w, c.worker);
    } else if l.ReceiveFrame? {
      ReadLoop(past, s, w, l);
    } else if l.Work? {
      N.InvOf(s, w);
      ServingOn(s, w);
      WorkedLoop(past, m, w, c.worker.id, c, c.worker.sched, l.e);
    }
  }

  lemma StillWorker(past: seq<Moment>, m: Moment, w: WorkerId, worker: Worker)
    requires WorkerFrom(past, w, worker)
    ensures WorkerFrom(past + [m], w, worker)
  {
    hide LoopFrom;
    match worker
    case Serving(id, sched) => StillLoop(past, m, w, id, sched);
    case Leaving(id, _, Some(left)) => StillLoop(past, m, w, id, left);
    case Leaving(id, _, None) => assert forall n :: n in past ==> n in past + [m];
    case _ =>
  }

  lemma LoopsStep(past: seq<Moment>, s: Sys, l: Label)
    requires SysInv(s) && FramesFrom(past, s) && LoopsFrom(past, s.conns)
    ensures LoopsFrom(past + [Moment(s, l)], Next(s, l).conns)
  {
    hide SysInv, Next, FramesFrom, ConnFrom, WorkerFrom, Moved;
    StepMoves(s, l);
    var m := Moment(s, l);
    forall w | w in Next(s, l).conns ensures WorkerFrom(past + [m], w, Next(s, l).conns[w].worker) {
      if w in s.conns && Moved(s, l, w, Next(s, l).conns[w]) {
        ConnIn(past, s, w);
        MovedLoop(past, s, l, w, Next(s, l).conns[w]);
      } else {
        NewWorker(past + [m], w);
      }
    }
  }

  lemma NewWorker(past: seq<Moment>, w: WorkerId)
    ensures WorkerFrom(past, w, Awaiting)
  {
  }

  lemma {:induction false} LoopsHere(labels: seq<Label>)
    ensures LoopsFrom(Past(labels), Exec(INIT, labels).conns)
    decreases |labels|
  {
    hide SysInv, Next, FramesFrom, WorkerFrom, Past;
    if labels != [] {
      var before := labels[..|labels| - 1];
      LoopsHere(before);
      FramesHere(before);
      Reachable(before);
      PastGrows(labels);
      LastStep(labels);
      LoopsStep(Past(before), Exec(INIT, before), labels[|labels| - 1]);
    }
  }

  // ------------------------------------------------------------------- theorems

  /** The session a worker is in, or has left and not yet reported, and its loop. */
  function InSession(worker: Worker): Option<(SessionId, S.Sched)> {
    match worker
    case Serving(id, sched) => Some((id, sched))
    case Leaving(id, _, Some(left)) => Some((id, left))
    case _ => None
  }

  lemma LoopHere(labels: seq<Label>, w: WorkerId)
    requires w in Exec(INIT, labels).conns && InSession(Exec(INIT, labels).conns[w].worker).Some?
    ensures var l := InSession(Exec(INIT, labels).conns[w].worker).value; LoopFrom(Past(labels), w, l.0, l.1)
  {
    hide Exec, LoopFrom, Past;
    LoopsHere(labels);
    assert WorkerFrom(Past(labels), w, Exec(INIT, labels).conns[w].worker);
  }

  /** What commands were started with: always the identity the session was created
      with, and before any stateful command the directory and variables it was
      created with, TERM set and HOME too if there is one. */
  ghost predicate StartedFrom(c: Moment, r: Moment, s: S.Sched) {
    c.step.CreateSession? && r.step.ReceiveFrame? &&
    forall t :: 0 <= t < |s.book| && s.book[t].fate.Started? ==>
      var inputs, given := c.step.inputs, s.book[t].fate.given;
      && given.dropTo == inputs.dropTo
      && (NoneBefore(s.book, t) ==>
            S.Initial(S.Shell(inputs.workingDir, inputs.env), r.step.home, S.Shell(given.workingDir, given.env)))
  }

  lemma FirstsGiven(c: Moment, r: Moment, w: WorkerId, id: SessionId, init: S.Shell, dropTo: Option<DropTo>,
                    l: S.Sched)
    requires OpenedAt(c, r, w, id, init, dropTo) && Begun(l, init, dropTo)
    ensures StartedFrom(c, r, l)
  {
    hide CreatedAt, S.Initial, NoneBefore, NoneDone;
    forall t | 0 <= t < |l.book| && l.book[t].fate.Started?
      ensures var inputs, given := c.step.inputs, l.book[t].fate.given;
              && given.dropTo == inputs.dropTo
              && (NoneBefore(l.book, t) ==>
                    S.Initial(S.Shell(inputs.workingDir, inputs.env), r.step.home,
                              S.Shell(given.workingDir, given.env)))
    {
      assert GivenFirst(l.book, t, init, dropTo);
      var given := l.book[t].fate.given;
      if NoneBefore(l.book, t) {
        assert S.Shell(given.workingDir, given.env) == init;
      }
    }
  }

  /** In every run, for the session a worker serves or has just left: there are the
      request that created it and the step in which the worker started its shell,
      and its commands were given what these two say. */
  lemma FirstCommands(labels: seq<Label>, w: WorkerId)
    ensures var s := Exec(INIT, labels);
            w in s.conns && InSession(s.conns[w].worker).Some? ==>
              var (id, l) := InSession(s.conns[w].worker).value;
              exists c, r ::
                && c in Past(labels) && r in Past(labels)
                && c.step.CreateSession? && CreatedAt(c, id, c.step.inputs)
                && r.step.ReceiveFrame? && r.step.w == w && r.step.spawnError == None
                && StartedFrom(c, r, l)
  {
    hide Exec, Past, CreatedAt, S.Initial, StartedFrom, Begun;
    var s := Exec(INIT, labels);
    if w in s.conns && InSession(s.conns[w].worker).Some? {
      var (id, l) := InSession(s.conns[w].worker).value;
      LoopHere(labels, w);
      var init, dropTo :| Opened(Past(labels), w, id, init, dropTo) && Begun(l, init, dropTo);
      var c, r :| c in Past(labels) && r in Past(labels) && OpenedAt(c, r, w, id, init, dropTo);
      FirstsGiven(c, r, w, id, init, dropTo, l);
    }
  }

  /** In every run, each command a worker has accepted was submitted to that
      session, and it is started, if at all, with the text it was submitted with;
      one that was withdrawn, or is running and was told to stop, had been asked to. */
  lemma CommandsSubmitted(labels: seq<Label>, w: WorkerId, t: nat)
    ensures var s := Exec(INIT, labels);
            w in s.conns && InSession(s.conns[w].worker).Some? ==>
              var (id, l) := InSession(s.conns[w].worker).value;
              t < |l.book| ==>
                var rid := l.book[t].execute.requestId;
                && (exists m ::
                      && m in Past(labels) && SubmittedAt(m, id, l.book[t].execute, l.book[t].mode)
                      && (l.book[t].fate.Started? ==>
                            m.step == BeginSubmit(id, rid, l.book[t].fate.given.command, l.book[t].mode)))
                && (l.book[t].fate.Withdrawn? || (rid in l.running && l.running[rid].cancelled) ==>
                      exists m :: m in Past(labels) && AskedAt(m, rid))
  {
    hide Exec, Past, AskedAt, SubmittedAt;
    var s := Exec(INIT, labels);
    if w in s.conns && InSession(s.conns[w].worker).Some? {
      var (id, l) := InSession(s.conns[w].worker).value;
      LoopHere(labels, w);
      hide Exec, LoopFrom;
      if t < |l.book| {
        SubmittedAs(Past(labels), w, id, l, t);
        CancelledAs(Past(labels), w, id, l, t);
      }
    }
  }

  lemma SubmittedAs(past: seq<Moment>, w: WorkerId, id: SessionId, l: S.Sched, t: nat)
    requires LoopFrom(past, w, id, l) && t < |l.book|
    ensures exists m ::
              && m in past && SubmittedAt(m, id, l.book[t].execute, l.book[t].mode)
              && (l.book[t].fate.Started? ==>
                    m.step
                    == BeginSubmit(id, l.book[t].execute.requestId, l.book[t].fate.given.command, l.book[t].mode))
  {
    hide Opened, NoneBefore, NoneDone;
    var init, dropTo :| Opened(past, w, id, init, dropTo) && Begun(l, init, dropTo);
    assert GivenFirst(l.book, t, init, dropTo);
    assert Caused(past, SessionRun(id, l.book[t].execute, l.book[t].mode));
    var m :| m in past && SubmittedAt(m, id, l.book[t].execute, l.book[t].mode);
    assert m.step == BeginSubmit(id, l.book[t].execute.requestId, l.book[t].execute.command, l.book[t].mode);
  }

  lemma CancelledAs(past: seq<Moment>, w: WorkerId, id: SessionId, l: S.Sched, t: nat)
    requires LoopFrom(past, w, id, l) && t < |l.book|
    ensures var rid := l.book[t].execute.requestId;
            l.book[t].fate.Withdrawn? || (rid in l.running && l.running[rid].cancelled) ==>
              exists m :: m in past && AskedAt(m, rid)
  {
    hide Opened, Begun, AskedAt, SubmittedAt;
    var rid := l.book[t].execute.requestId;
    if l.book[t].fate.Withdrawn? || (rid in l.running && l.running[rid].cancelled) {
      assert Caused(past, Cancel(rid));
    }
  }

  /** The step in which the worker reported a session over, with why. */
  ghost predicate ReportedAt(past: seq<Moment>, m: Moment, w: WorkerId, id: SessionId, error: Option<string>,
                             reusable: bool)
  {
    && m.step.SendReport? && m.step.w == w && w in m.before.conns
    && var worker := m.before.conns[w].worker;
       && worker.Leaving? && worker.id == id
       && (reusable <==> !m.step.resetFailed && !m.step.exiting)
       && (if m.step.resetFailed then error == Some("sandbox reset failed")
           else if worker.left.Some? then LeavesSaying(worker.left.value, error)
           else SpawnFailed(past, w, error))
  }

  /** In every run, a report on its way to the server says why the loop ended,
      that the shell could not be started, or that the reset failed; and the worker
      calls itself reusable exactly if it was reset and is not about to exit. */
  lemma ReportsTruthful(labels: seq<Label>, w: WorkerId, id: SessionId, error: Option<string>, reusable: bool)
    ensures var s := Exec(INIT, labels);
            w in s.conns && SessionClosed(id, error, reusable) in s.conns[w].up ==>
              exists m :: m in Past(labels) && ReportedAt(Past(labels), m, w, id, error, reusable)
  {
    hide Exec, Past, FramesFrom, WorkerFrom;
    var s := Exec(INIT, labels);
    if w in s.conns && SessionClosed(id, error, reusable) in s.conns[w].up {
      FramesHere(labels);
      ConnIn(Past(labels), s, w);
      assert Traced(Past(labels), w, SessionClosed(id, error, reusable));
      var m :| m in Past(labels) && Wrote(m.before, m.step, w, SessionClosed(id, error, reusable));
      WorkerThen(labels, m, w);
      LeftSaying(Past(labels), w, m.before.conns[w].worker);
      assert ReportedAt(Past(labels), m, w, id, error, reusable);
    }
  }

  lemma LeftSaying(past: seq<Moment>, w: WorkerId, worker: Worker)
    requires WorkerFrom(past, w, worker) && worker.Leaving?
    ensures if worker.left.Some? then LeavesSaying(worker.left.value, worker.error)
            else SpawnFailed(past, w, worker.error)
  {
  }

  lemma WorkerThen(labels: seq<Label>, m: Moment, w: WorkerId)
    requires m in Past(labels) && w in m.before.conns
    ensures WorkerFrom(Past(labels), w, m.before.conns[w].worker)
  {
    hide Exec, WorkerFrom, Past;
    var k := PastIs(labels, m);
    LoopsHere(labels[..k]);
    EarlierWorker(labels, k, w, m.before.conns[w].worker);
  }

  lemma {:induction false} EarlierWorker(labels: seq<Label>, k: nat, w: WorkerId, worker: Worker)
    requires k <= |labels| && WorkerFrom(Past(labels[..k]), w, worker)
    ensures WorkerFrom(Past(labels), w, worker)
    decreases |labels|
  {
    hide Exec, WorkerFrom, Past;
    if k == |labels| {
      assert labels[..k] == labels;
    } else {
      var before := labels[..|labels| - 1];
      assert before[..k] == labels[..k];
      EarlierWorker(before, k, w, worker);
      PastGrows(labels);
      StillWorker(Past(before), Moment(Exec(INIT, before), labels[|labels| - 1]), w, worker);
    }
  }

  /** What reading its next frame does to a worker. Between sessions an open starts
      one; in a session, a close of it ends the loop, a command is accepted or
      refused, and a cancel flags or withdraws the command it names. */
  ghost predicate Heeds(was: Worker, f: Frame, spawnError: Option<string>, worker: Worker) {
    match was
    case Awaiting =>
      if !f.SessionOpen? then worker == Awaiting
      else if spawnError.Some? then worker == Leaving(f.sessionId, spawnError, None)
      else worker.Serving? && worker.id == f.sessionId && worker.sched.book == []
    case Serving(id, l) =>
      if f == SessionClose(id) then worker.Leaving? && worker.id == id && worker.error == None && worker.left.Some?
      else
        && worker.Serving? && worker.id == id
        && (if f.SessionRun? && f.sessionId == id
            then var rid := f.execute.requestId;
                 worker.sched.book
                 == if rid in l.running || S.Queued(l.queued, rid) || |l.running| + |l.queued| >= 32 then l.book
                    else l.book + [S.Ticket(f.execute, f.mode, S.Waiting)]
            else if f.Cancel?
            then !S.Queued(worker.sched.queued, f.requestId) && worker.sched.running.Keys == l.running.Keys
                 && (f.requestId in l.running ==> worker.sched.running[f.requestId].cancelled)
            else worker == was)
    case Leaving(_, _, _) => worker == was
    case Gone(_) => worker == was
  }

  /** A worker that has not given its connection up reads the next frame, and heeds it so. */
  lemma FrameHeeded(s: Sys, w: WorkerId, spawnError: Option<string>, home: Option<string>)
    requires SysInv(s) && w in s.conns && s.conns[w].down != [] && !s.conns[w].worker.Gone?
    ensures var c, s' := s.conns[w], Next(s, ReceiveFrame(w, spawnError, home));
            && w in s'.conns && s'.conns[w].down == c.down[1..]
            && Heeds(c.worker, c.down[0], spawnError, s'.conns[w].worker)
  {
    hide SysInv, Next;
    NextOnWire(s, ReceiveFrame(w, spawnError, home));
    if s.conns[w].worker.Serving? {
      ServingOn(s, w);
      if s.conns[w].down[0].Cancel? {
        CancelHeeded(s, w, spawnError, home);
      }
    }
  }

  lemma CancelHeeded(s: Sys, w: WorkerId, spawnError: Option<string>, home: Option<string>)
    requires SysInv(s) && w in s.conns && s.conns[w].down != [] && s.conns[w].worker.Serving?
    requires s.conns[w].down[0].Cancel?
    ensures Heeds(s.conns[w].worker, s.conns[w].down[0], spawnError, Receive(s.conns[w], spawnError, home).worker)
  {
    hide SysInv, S.Inv;
    ServingOn(s, w);
    N.InvOf(s, w);
    var l, rid := s.conns[w].worker.sched, s.conns[w].down[0].requestId;
    NoMoreQueued(l, rid);
  }

  /** A withdrawn command is queued no more. */
  lemma NoMoreQueued(l: S.Sched, rid: ExecId)
    requires S.Inv(l)
    ensures !S.Queued(S.Cancelled(l, rid).0.queued, rid)
    ensures S.Cancelled(l, rid).0.ended == l.ended
  {
    hide S.QueueBook, S.RunningBook, S.InOrder, S.Barrier;
    var i := S.Position(l.queued, rid);
    if i < |l.queued| && rid !in l.running {
      var q' := S.RemoveAt(l.queued, i);
      forall j | 0 <= j < |q'| ensures q'[j].execute.requestId != rid {
        assert q'[j] == l.queued[if j < i then j else j + 1];
      }
    }
  }
}
