/** The worker's session loop, `run_session` in shiitake-worker/src/client.rs.

    `Sched` is the loop's local state; each function below is one arm of its
    `select!`, or the admission loop at its head. A function returns the new
    state and the frames written to the dispatch socket. */
module Scheduler {
  import opened Wrappers
  import opened Protocol

  /** At most this many commands are running or waiting in one session. */
  const LIMIT: nat := 32

  /** Directory and exported variables, as a started command receives them and
      as a finished stateful command leaves them. */
  datatype Shell = Shell(dir: string, env: map<string, string>)

  /** What became of an accepted command. */
  datatype Fate = Waiting | Started(given: Execute, done: bool) | SetupFailed | Withdrawn

  /** One line of the session's book: an accepted command and its fate. The book
      is history: nothing in the loop reads it. */
  datatype Ticket = Ticket(execute: Execute, mode: Mode, fate: Fate)

  /** `ticket` is the command's line in the book. */
  datatype Job = Job(execute: Execute, mode: Mode, ticket: nat)

  datatype Slot = Slot(ticket: nat, cancelled: bool)

  /** Why the loop was left: the connection died; the session was closed or its
      shell ended; a stateful command could not be handed to the shell, or left a
      shell state that could not be read, or did not stop when cancelled. */
  datatype End =
    | Lost
    | Over
    | Unwritten(why: string)
    | Unreadable(requestId: ExecId, why: string)
    | Stuck(requestId: ExecId)

  datatype Sched = Sched(
    dropTo: Option<DropTo>,
    current: Shell,
    queued: seq<Job>,
    running: map<ExecId, Slot>,
    stateful: Option<ExecId>,
    ended: Option<End>,
    book: seq<Ticket>)

  /** What happens when the admission loop hands a stateful command to the shell.
      One admission reaches at most one stateful command. */
  datatype Setup = Prepared | PrepareFailed(why: string) | WriteFailed(why: string)

  datatype Event =
    | Admission(setup: Setup)
    | RunFrame(execute: Execute, mode: Mode)
    | CancelFrame(requestId: ExecId)
    | CloseFrame
    | JobResult(result: ResultFrame, snapshot: Result<Shell, string>, sendOk: bool)
    | JobAbort(requestId: ExecId)
    | Disconnect
    | ShellExit

  function Start(shell: Shell, home: Option<string>, dropTo: Option<DropTo>): Sched {
    var env := shell.env["TERM" := "xterm-256color"];
    var env' := if home.Some? then env["HOME" := home.value] else env;
    Sched(dropTo, Shell(shell.dir, env'), [], map[], None, None, [])
  }

  /** What a session's first commands are given: its directory, and its variables
      with TERM set and, for an account with a home, HOME. */
  ghost predicate Initial(shell: Shell, home: Option<string>, init: Shell) {
    var own := {"TERM"} + (if home.Some? then {"HOME"} else {});
    && init.dir == shell.dir
    && init.env.Keys == shell.env.Keys + own
    && init.env["TERM"] == "xterm-256color"
    && (home.Some? ==> init.env["HOME"] == home.value)
    && (forall name :: name in shell.env && name !in own ==> init.env[name] == shell.env[name])
  }

  /** A session starts with that, and nothing else is that. */
  lemma StartIs(shell: Shell, home: Option<string>, dropTo: Option<DropTo>, init: Shell)
    ensures Initial(shell, home, init) <==> init == Start(shell, home, dropTo).current
    ensures var s := Start(shell, home, dropTo);
            s.dropTo == dropTo && s.queued == [] && s.running == map[] && s.stateful == None && s.ended == None
            && s.book == []
  {
    var own := {"TERM"} + (if home.Some? then {"HOME"} else {});
    var current := Start(shell, home, dropTo).current;
    assert current.env.Keys == shell.env.Keys + own;
    if Initial(shell, home, init) {
      assert forall name :: name in init.env ==> name in own || name in shell.env;
      assert init.env == current.env;
    }
  }

  function Mark(book: seq<Ticket>, t: nat, fate: Fate): (r: seq<Ticket>)
    ensures |r| == |book|
  {
    if t < |book| then book[t := book[t].(fate := fate)] else book
  }

  /** What a job is started with: the session's current shell state and identity. */
  function Given(s: Sched, execute: Execute): Execute {
    execute.(workingDir := s.current.dir, env := s.current.env, dropTo := s.dropTo)
  }

  /** Move the head of the queue into `running`. */
  function Launch(s: Sched): Sched
    requires s.queued != []
  {
    var job := s.queued[0];
    s.(queued := s.queued[1..],
       running := s.running[job.execute.requestId := Slot(job.ticket, false)],
       book := Mark(s.book, job.ticket, Started(Given(s, job.execute), false)))
  }

  /** Take the head of the queue out without starting it. */
  function Spoil(s: Sched): Sched
    requires s.queued != []
  {
    s.(queued := s.queued[1..], book := Mark(s.book, s.queued[0].ticket, SetupFailed))
  }

  function SetupMessage(why: string): string { "stateful command setup: " + why }

  function WriteMessage(why: string): string { "could not submit shell command: " + why }

  /** The admission loop at the head of every iteration. */
  function Admit(s: Sched, setup: Setup): (Sched, seq<Frame>)
    decreases |s.queued|
  {
    if s.ended.Some? || s.stateful.Some? || |s.running| >= LIMIT || s.queued == [] then (s, [])
    else if s.queued[0].mode.Parallel? then Admit(Launch(s), setup)
    else
      var rid := s.queued[0].execute.requestId;
      match setup
      case Prepared => (Launch(s).(stateful := Some(rid)), [])
      case PrepareFailed(why) => (Spoil(s), [ResultOf(Errored(rid, SetupMessage(why)))])
      case WriteFailed(why) => (Spoil(s).(ended := Some(Unwritten(why))), [])
  }

  predicate Queued(q: seq<Job>, rid: ExecId) {
    exists i :: 0 <= i < |q| && q[i].execute.requestId == rid
  }

  /** First position of a request in the queue, or the queue's length. */
  function Position(q: seq<Job>, rid: ExecId): (i: nat)
    ensures i <= |q|
    ensures i < |q| ==> q[i].execute.requestId == rid
    ensures forall j :: 0 <= j < i ==> q[j].execute.requestId != rid
  {
    if q == [] then 0
    else if q[0].execute.requestId == rid then 0
    else
      var i := Position(q[1..], rid);
      assert forall j :: 1 <= j < i + 1 ==> q[j] == q[1..][j - 1];
      i + 1
  }

  /** `q'` is `q` without its entry `i`. */
  ghost predicate IsWithout(q: seq<Job>, i: nat, q': seq<Job>) {
    && i < |q| && |q'| == |q| - 1
    && (forall j :: 0 <= j < i ==> q'[j] == q[j])
    && (forall j :: i <= j < |q'| ==> q'[j] == q[j + 1])
  }

  function RemoveAt(q: seq<Job>, i: nat): (q': seq<Job>)
    requires i < |q|
    ensures IsWithout(q, i, q')
  {
    q[..i] + q[i + 1..]
  }

  const REFUSED := "duplicate job or session concurrency limit reached"

  predicate Refused(s: Sched, rid: ExecId) {
    || rid in s.running
    || Queued(s.queued, rid)
    || |s.running| + |s.queued| >= LIMIT
  }

  function Accept(s: Sched, execute: Execute, mode: Mode): (Sched, seq<Frame>) {
    if Refused(s, execute.requestId) then (s, [ResultOf(Errored(execute.requestId, REFUSED))])
    else (s.(queued := s.queued + [Job(execute, mode, |s.book|)],
             book := s.book + [Ticket(execute, mode, Waiting)]), [])
  }

  function Withdrawal(rid: ExecId): ResultFrame {
    ResultFrame(rid, None, None, true, Some("cancelled before start"))
  }

  function Cancelled(s: Sched, rid: ExecId): (Sched, seq<Frame>) {
    if rid in s.running then (s.(running := s.running[rid := s.running[rid].(cancelled := true)]), [])
    else
      var i := Position(s.queued, rid);
      if i == |s.queued| then (s, [])
      else (s.(queued := RemoveAt(s.queued, i),
               book := Mark(s.book, s.queued[i].ticket, Withdrawn)),
            [ResultOf(Withdrawal(rid))])
  }

  /** Take a finished job out of `running`; `left` is the shell state a stateful command left. */
  function Finish(s: Sched, rid: ExecId, left: Option<Shell>): Sched {
    if rid !in s.running then s
    else
      var t := s.running[rid].ticket;
      s.(running := s.running - {rid},
         current := if left.Some? then left.value else s.current,
         stateful := if left.Some? then None else s.stateful,
         book := if t < |s.book| && s.book[t].fate.Started?
                 then Mark(s.book, t, Started(s.book[t].fate.given, true)) else s.book)
  }

  function SnapshotMessage(why: string): string { "could not read completed shell state: " + why }

  /** A job's report. A stateful command's report also updates the shell state
      handed to later commands. */
  function Complete(s: Sched, result: ResultFrame, snapshot: Result<Shell, string>, sendOk: bool): (Sched, seq<Frame>) {
    var rid := result.requestId;
    if s.stateful == Some(rid) && snapshot.Err? then
      var error := Some(SnapshotMessage(snapshot.error));
      (s.(ended := Some(Unreadable(rid, snapshot.error))), [ResultOf(result.(error := error))])
    else
      var s' := Finish(s, rid, if s.stateful == Some(rid) then Some(snapshot.value) else None);
      if sendOk then (s', [ResultOf(result)]) else (s'.(ended := Some(Lost)), [])
  }

  const STUCK := "stateful command did not stop"

  function Abort(s: Sched, rid: ExecId): (Sched, seq<Frame>) {
    (s.(ended := Some(Stuck(rid))),
     [ResultOf(ResultFrame(rid, None, None, true, Some(STUCK)))])
  }

  /** The error reported with the end of the session. */
  function ErrorOf(end: End): Option<string> {
    match end
    case Lost => None
    case Over => None
    case Unwritten(why) => Some(WriteMessage(why))
    case Unreadable(_, why) => Some(SnapshotMessage(why))
    case Stuck(_) => Some(STUCK)
  }

  /** The stateful command the loop has answered for but left in `running`. */
  function GivenUp(s: Sched): Option<ExecId> {
    if s.ended.Some? && (s.ended.value.Unreadable? || s.ended.value.Stuck?) then Some(s.ended.value.requestId) else None
  }

  function Step(s: Sched, e: Event): (Sched, seq<Frame>) {
    if s.ended.Some? then (s, [])
    else
      match e
      case Admission(setup) => Admit(s, setup)
      case RunFrame(execute, mode) => Accept(s, execute, mode)
      case CancelFrame(rid) => Cancelled(s, rid)
      case CloseFrame => (s.(ended := Some(Over)), [])
      case JobResult(result, snapshot, sendOk) => Complete(s, result, snapshot, sendOk)
      case JobAbort(rid) => Abort(s, rid)
      case Disconnect => (s.(ended := Some(Lost)), [])
      case ShellExit => (s.(ended := Some(Over)), [])
  }

  /** Reports come only from jobs the loop spawned and that have not reported yet;
      only the stateful command's watcher aborts. */
  predicate Legal(s: Sched, e: Event) {
    match e
    case JobResult(result, _, _) => result.requestId in s.running
    case JobAbort(rid) => s.stateful == Some(rid)
    case _ => true
  }

  // ---------------------------------------------------------------- invariants

  predicate IsRunning(t: Ticket) { t.fate.Started? && !t.fate.done }

  /** The command can no longer delay anyone: it finished, its setup failed, or it was cancelled before start. */
  predicate Resolved(t: Ticket) {
    t.fate.SetupFailed? || t.fate.Withdrawn? || (t.fate.Started? && t.fate.done)
  }

  /** The 32-command bound, and no request held twice. */
  ghost predicate Shape(s: Sched) {
    && |s.running| + |s.queued| <= LIMIT
    && (forall i, j :: 0 <= i < j < |s.queued| ==> s.queued[i].execute.requestId != s.queued[j].execute.requestId)
    && (forall i :: 0 <= i < |s.queued| ==> s.queued[i].execute.requestId !in s.running)
    && (s.stateful.Some? ==> s.stateful.value in s.running)
  }

  ghost predicate HasTicket(q: seq<Job>, t: nat) {
    exists i :: 0 <= i < |q| && q[i].ticket == t
  }

  /** The queue is exactly the waiting lines of the book, in order. */
  ghost predicate QueueBook(q: seq<Job>, book: seq<Ticket>) {
    && (forall i, j :: 0 <= i < j < |q| ==> q[i].ticket < q[j].ticket)
    && (forall i :: 0 <= i < |q| ==>
          q[i].ticket < |book| && book[q[i].ticket] == Ticket(q[i].execute, q[i].mode, Waiting))
    && (forall t :: 0 <= t < |book| && book[t].fate.Waiting? ==> HasTicket(q, t))
  }

  /** `running` is exactly the unfinished started lines of the book. */
  ghost predicate RunningBook(running: map<ExecId, Slot>, stateful: Option<ExecId>, book: seq<Ticket>) {
    && (forall r :: r in running ==>
          running[r].ticket < |book| && IsRunning(book[running[r].ticket])
          && book[running[r].ticket].execute.requestId == r)
    && (forall t :: 0 <= t < |book| && IsRunning(book[t]) ==>
          book[t].execute.requestId in running && running[book[t].execute.requestId].ticket == t)
    && (stateful.None? ==> forall t :: 0 <= t < |book| && IsRunning(book[t]) ==> book[t].mode.Parallel?)
    && (stateful.Some? ==> stateful.value in running && running[stateful.value].ticket < |book|
                           && book[running[stateful.value].ticket].mode.Stateful?)
  }

  /** Commands start in submission order. */
  ghost predicate InOrder(book: seq<Ticket>) {
    forall t, u :: 0 <= t < u < |book| && book[t].fate.Waiting? ==> !book[u].fate.Started?
  }

  /** Once a command has started, every stateful command accepted before it is resolved. */
  ghost predicate Barrier(book: seq<Ticket>) {
    forall t, u :: 0 <= t < u < |book| && book[t].mode.Stateful? && book[u].fate.Started? ==> Resolved(book[t])
  }

  ghost predicate Inv(s: Sched) {
    && Shape(s)
    && QueueBook(s.queued, s.book)
    && RunningBook(s.running, s.stateful, s.book)
    && InOrder(s.book)
    && Barrier(s.book)
  }

  // Taking the head of the queue: no earlier line of the book is waiting.

  lemma HeadIsFirstWaiting(q: seq<Job>, book: seq<Ticket>, t: nat)
    requires q != [] && QueueBook(q, book) && t < q[0].ticket
    ensures !book[t].fate.Waiting?
  {
    forall i | 0 <= i < |q| ensures q[i].ticket != t {
      if 0 < i {
        assert q[0].ticket < q[i].ticket;
      }
    }
  }

  lemma RemovedInQueue(q: seq<Job>, i: nat, q': seq<Job>, t: nat)
    requires IsWithout(q, i, q') && HasTicket(q, t) && t != q[i].ticket
    ensures HasTicket(q', t)
  {
    var j :| 0 <= j < |q| && q[j].ticket == t;
    assert q'[if j < i then j else j - 1].ticket == t;
  }

  /** Taking any entry out of the queue and closing its line of the book. */
  lemma RemoveFromQueue(q: seq<Job>, book: seq<Ticket>, i: nat, q': seq<Job>, fate: Fate)
    requires IsWithout(q, i, q') && QueueBook(q, book) && !fate.Waiting?
    ensures QueueBook(q', Mark(book, q[i].ticket, fate))
  {
    var book' := Mark(book, q[i].ticket, fate);
    forall t | 0 <= t < |book'| && book'[t].fate.Waiting? ensures HasTicket(q', t) {
      assert book[t].fate.Waiting?;
      RemovedInQueue(q, i, q', t);
    }
    forall j | 0 <= j < |q'|
      ensures q'[j].ticket < |book'| && book'[q'[j].ticket] == Ticket(q'[j].execute, q'[j].mode, Waiting)
    {
      var j' := if j < i then j else j + 1;
      assert q'[j] == q[j'] && q[j'].ticket != q[i].ticket;
    }
  }

  /** Closing a waiting line without starting it touches nothing else. */
  lemma CloseWaiting(s: Sched, k: nat, fate: Fate)
    requires RunningBook(s.running, s.stateful, s.book) && InOrder(s.book) && Barrier(s.book)
    requires k < |s.book| && s.book[k].fate.Waiting? && (fate.SetupFailed? || fate.Withdrawn?)
    ensures RunningBook(s.running, s.stateful, Mark(s.book, k, fate))
    ensures InOrder(Mark(s.book, k, fate)) && Barrier(Mark(s.book, k, fate))
  {
    var book' := Mark(s.book, k, fate);
    forall t | 0 <= t < |book'| && IsRunning(book'[t]) ensures t != k && book'[t] == s.book[t] {
    }
  }

  lemma StartKeepsOrder(q: seq<Job>, book: seq<Ticket>, given: Execute)
    requires q != [] && QueueBook(q, book) && InOrder(book)
    ensures InOrder(Mark(book, q[0].ticket, Started(given, false)))
  {
    forall t | 0 <= t < q[0].ticket ensures !book[t].fate.Waiting? {
      HeadIsFirstWaiting(q, book, t);
    }
  }

  lemma StartKeepsBarrier(s: Sched, given: Execute)
    requires s.queued != [] && QueueBook(s.queued, s.book) && RunningBook(s.running, s.stateful, s.book)
    requires InOrder(s.book) && Barrier(s.book) && s.stateful.None?
    ensures Barrier(Mark(s.book, s.queued[0].ticket, Started(given, false)))
  {
    var k := s.queued[0].ticket;
    var book' := Mark(s.book, k, Started(given, false));
    forall t, u | 0 <= t < u < |book'| && book'[t].mode.Stateful? && book'[u].fate.Started?
      ensures Resolved(book'[t])
    {
      if u == k {
        HeadIsFirstWaiting(s.queued, s.book, t);
      }
    }
  }

  lemma StartKeepsRunning(running: map<ExecId, Slot>, stateful: Option<ExecId>, book: seq<Ticket>, k: nat,
                          given: Execute)
    requires RunningBook(running, stateful, book) && stateful.None?
    requires k < |book| && book[k].fate.Waiting? && book[k].execute.requestId !in running
    ensures var rid := book[k].execute.requestId;
            RunningBook(running[rid := Slot(k, false)], if book[k].mode.Stateful? then Some(rid) else None,
                        Mark(book, k, Started(given, false)))
  {
    var rid := book[k].execute.requestId;
    var running', book' := running[rid := Slot(k, false)], Mark(book, k, Started(given, false));
    forall t | 0 <= t < |book'| && IsRunning(book'[t])
      ensures book'[t].execute.requestId in running' && running'[book'[t].execute.requestId].ticket == t
    {
      if t != k {
        assert IsRunning(book[t]);
      }
    }
  }

  /** The state after the admission loop starts the head of the queue. */
  function Started1(s: Sched): Sched
    requires s.queued != []
  {
    if s.queued[0].mode.Stateful? then Launch(s).(stateful := Some(s.queued[0].execute.requestId)) else Launch(s)
  }

  lemma LaunchInv(s: Sched)
    requires Inv(s) && s.queued != [] && s.stateful.None?
    ensures Inv(Started1(s))
  {
    var job := s.queued[0];
    var given := Given(s, job.execute);
    RemoveFromQueue(s.queued, s.book, 0, s.queued[1..], Started(given, false));
    StartKeepsOrder(s.queued, s.book, given);
    StartKeepsBarrier(s, given);
    StartKeepsRunning(s.running, s.stateful, s.book, job.ticket, given);
    var running' := s.running[job.execute.requestId := Slot(job.ticket, false)];
    assert running'.Keys == s.running.Keys + {job.execute.requestId};
    assert |running'| == |s.running| + 1;
    assert forall i :: 0 <= i < |s.queued| - 1 ==> s.queued[1..][i] == s.queued[i + 1];
  }

  lemma SpoilInv(s: Sched)
    requires Inv(s) && s.queued != []
    ensures Inv(Spoil(s))
  {
    RemoveFromQueue(s.queued, s.book, 0, s.queued[1..], SetupFailed);
    CloseWaiting(s, s.queued[0].ticket, SetupFailed);
    assert forall i :: 0 <= i < |s.queued| - 1 ==> s.queued[1..][i] == s.queued[i + 1];
  }

  lemma {:induction false} AdmitInv(s: Sched, setup: Setup)
    requires Inv(s)
    ensures Inv(Admit(s, setup).0)
    decreases |s.queued|
  {
    if s.ended.Some? || s.stateful.Some? || |s.running| >= LIMIT || s.queued == [] {
    } else {
      LaunchInv(s);
      if s.queued[0].mode.Parallel? {
        AdmitInv(Launch(s), setup);
      } else {
        SpoilInv(s);
      }
    }
  }

  lemma AppendQueue(q: seq<Job>, book: seq<Ticket>, execute: Execute, mode: Mode)
    requires QueueBook(q, book)
    ensures QueueBook(q + [Job(execute, mode, |book|)], book + [Ticket(execute, mode, Waiting)])
  {
    var q', book' := q + [Job(execute, mode, |book|)], book + [Ticket(execute, mode, Waiting)];
    forall t | 0 <= t < |book'| && book'[t].fate.Waiting? ensures HasTicket(q', t) {
      if t == |book| {
        assert q'[|q|].ticket == t;
      } else {
        assert book[t].fate.Waiting?;
        var i :| 0 <= i < |q| && q[i].ticket == t;
        assert q'[i].ticket == t;
      }
    }
    forall i, j | 0 <= i < j < |q'| ensures q'[i].ticket < q'[j].ticket {
      assert q'[i] == q[i];
    }
  }

  lemma AppendBook(s: Sched, line: Ticket)
    requires RunningBook(s.running, s.stateful, s.book) && InOrder(s.book) && Barrier(s.book)
    requires line.fate.Waiting?
    ensures RunningBook(s.running, s.stateful, s.book + [line])
    ensures InOrder(s.book + [line]) && Barrier(s.book + [line])
  {
    var book' := s.book + [line];
    forall t | 0 <= t < |book'| && IsRunning(book'[t]) ensures t < |s.book| && book'[t] == s.book[t] {
    }
  }

  lemma AcceptInv(s: Sched, execute: Execute, mode: Mode)
    requires Inv(s)
    ensures Inv(Accept(s, execute, mode).0)
  {
    if !Refused(s, execute.requestId) {
      var s' := Accept(s, execute, mode).0;
      AppendQueue(s.queued, s.book, execute, mode);
      AppendBook(s, Ticket(execute, mode, Waiting));
      forall i, j | 0 <= i < j < |s'.queued|
        ensures s'.queued[i].execute.requestId != s'.queued[j].execute.requestId
      {
        assert s'.queued[i] == s.queued[i];
      }
    }
  }

  lemma RemovedShape(s: Sched, i: nat, q': seq<Job>)
    requires Shape(s) && IsWithout(s.queued, i, q')
    ensures Shape(s.(queued := q'))
  {
    forall j | 0 <= j < |q'| ensures q'[j] == s.queued[if j < i then j else j + 1] {
    }
  }

  /** A cancel for a running command only raises its flag. */
  lemma FlagInv(s: Sched, rid: ExecId, slot: Slot)
    requires Inv(s) && rid in s.running && slot == s.running[rid].(cancelled := true)
    ensures Inv(s.(running := s.running[rid := slot]))
  {
    var running' := s.running[rid := slot];
    assert running'.Keys == s.running.Keys;
    assert |running'| == |running'.Keys| == |s.running|;
    assert forall r :: r in running' ==> running'[r].ticket == s.running[r].ticket;
  }

  lemma WithdrawInv(s: Sched, i: nat, q': seq<Job>)
    requires Inv(s) && IsWithout(s.queued, i, q')
    ensures Inv(s.(queued := q', book := Mark(s.book, s.queued[i].ticket, Withdrawn)))
  {
    RemoveFromQueue(s.queued, s.book, i, q', Withdrawn);
    CloseWaiting(s, s.queued[i].ticket, Withdrawn);
    RemovedShape(s, i, q');
  }

  lemma CancelledInv(s: Sched, rid: ExecId)
    requires Inv(s)
    ensures Inv(Cancelled(s, rid).0)
  {
    if rid in s.running {
      FlagInv(s, rid, s.running[rid].(cancelled := true));
    } else {
      var i := Position(s.queued, rid);
      if i < |s.queued| {
        WithdrawInv(s, i, RemoveAt(s.queued, i));
      }
    }
  }

  lemma FinishBook(s: Sched, rid: ExecId)
    requires RunningBook(s.running, s.stateful, s.book) && QueueBook(s.queued, s.book)
    requires InOrder(s.book) && Barrier(s.book)
    requires rid in s.running
    ensures var k := s.running[rid].ticket;
            var book' := Mark(s.book, k, Started(s.book[k].fate.given, true));
            && QueueBook(s.queued, book') && InOrder(book') && Barrier(book')
            && RunningBook(s.running - {rid}, if s.stateful == Some(rid) then None else s.stateful, book')
  {
    var k := s.running[rid].ticket;
    var book' := Mark(s.book, k, Started(s.book[k].fate.given, true));
    var running' := s.running - {rid};
    var stateful' := if s.stateful == Some(rid) then None else s.stateful;
    forall t | 0 <= t < |book'| && IsRunning(book'[t])
      ensures t != k && book'[t].execute.requestId in running' && running'[book'[t].execute.requestId].ticket == t
      ensures stateful'.None? ==> book'[t].mode.Parallel?
    {
      assert IsRunning(s.book[t]);
    }
  }

  lemma FinishInv(s: Sched, rid: ExecId, left: Option<Shell>)
    requires Inv(s) && rid in s.running && (left.Some? <==> s.stateful == Some(rid))
    ensures Inv(Finish(s, rid, left))
  {
    FinishBook(s, rid);
    assert (s.running - {rid}).Keys == s.running.Keys - {rid};
  }

  lemma CompleteInv(s: Sched, result: ResultFrame, snapshot: Result<Shell, string>, sendOk: bool)
    requires Inv(s) && result.requestId in s.running
    ensures Inv(Complete(s, result, snapshot, sendOk).0)
  {
    var rid := result.requestId;
    if !(s.stateful == Some(rid) && snapshot.Err?) {
      FinishInv(s, rid, if s.stateful == Some(rid) then Some(snapshot.value) else None);
    }
  }

  lemma StepInv(s: Sched, e: Event)
    requires Inv(s) && Legal(s, e)
    ensures Inv(Step(s, e).0)
  {
    if s.ended.None? {
      match e
      case Admission(setup) => AdmitInv(s, setup);
      case RunFrame(execute, mode) => AcceptInv(s, execute, mode);
      case CancelFrame(rid) => CancelledInv(s, rid);
      case JobResult(result, snapshot, sendOk) => CompleteInv(s, result, snapshot, sendOk);
      case _ =>
    }
  }

  // ------------------------------------------------------------- conservation

  function JobIds(q: seq<Job>): multiset<ExecId> {
    if q == [] then multiset{} else multiset{q[0].execute.requestId} + JobIds(q[1..])
  }

  /** The commands the worker holds, waiting or running, with multiplicity. */
  function Held(s: Sched): multiset<ExecId> {
    JobIds(s.queued) + multiset(s.running.Keys)
  }

  lemma {:induction false} JobIdsAppend(q: seq<Job>, job: Job)
    ensures JobIds(q + [job]) == JobIds(q) + multiset{job.execute.requestId}
  {
    if q == [] {
      assert q + [job] == [job];
    } else {
      assert (q + [job])[1..] == q[1..] + [job];
      JobIdsAppend(q[1..], job);
    }
  }

  lemma {:induction false} JobIdsRemove(q: seq<Job>, i: nat, q': seq<Job>)
    requires IsWithout(q, i, q')
    ensures JobIds(q) == JobIds(q') + multiset{q[i].execute.requestId}
  {
    if i == 0 {
      assert q' == q[1..];
    } else {
      assert IsWithout(q[1..], i - 1, q'[1..]);
      JobIdsRemove(q[1..], i - 1, q'[1..]);
    }
  }

  lemma {:induction false} JobIdsIn(q: seq<Job>, rid: ExecId)
    ensures rid in JobIds(q) <==> Queued(q, rid)
  {
    if q != [] {
      JobIdsIn(q[1..], rid);
      if Queued(q[1..], rid) {
        var i :| 0 <= i < |q[1..]| && q[1..][i].execute.requestId == rid;
        assert q[i + 1].execute.requestId == rid;
      }
      if Queued(q, rid) && q[0].execute.requestId != rid {
        var i :| 0 <= i < |q| && q[i].execute.requestId == rid;
        assert q[1..][i - 1].execute.requestId == rid;
      }
    }
  }

  lemma KeysAdd(m: map<ExecId, Slot>, rid: ExecId, slot: Slot)
    requires rid !in m
    ensures multiset(m[rid := slot].Keys) == multiset(m.Keys) + multiset{rid}
  {
    assert m[rid := slot].Keys == m.Keys + {rid};
  }

  lemma KeysRemove(m: map<ExecId, Slot>, rid: ExecId)
    requires rid in m
    ensures multiset(m.Keys) == multiset((m - {rid}).Keys) + multiset{rid}
  {
    assert m.Keys == (m - {rid}).Keys + {rid};
  }

  /** The command an event brings to the worker, if any. */
  function Offered(e: Event): multiset<ExecId> {
    if e.RunFrame? then multiset{e.execute.requestId} else multiset{}
  }

  lemma LaunchFlow(s: Sched)
    requires Shape(s) && s.queued != []
    ensures Held(Launch(s)) == Held(s)
    ensures |s.running| < LIMIT ==> Shape(Launch(s))
  {
    var rid := s.queued[0].execute.requestId;
    KeysAdd(s.running, rid, Slot(s.queued[0].ticket, false));
    assert s.running[rid := Slot(s.queued[0].ticket, false)].Keys == s.running.Keys + {rid};
    RemovedShape(s, 0, s.queued[1..]);
  }

  lemma AnsweredOne(f: Frame)
    requires f.ResultOf?
    ensures Answered([f]) == multiset{f.result.requestId}
  {
    assert [f][1..] == [];
  }

  /** The commands the worker holds and has not answered for. */
  function Owed(s: Sched): multiset<ExecId> {
    if GivenUp(s).Some? then Held(s) - multiset{GivenUp(s).value} else Held(s)
  }

  /** A failed hand-over to the shell is the only way admission ends the loop. */
  lemma {:induction false} AdmitFlow(s: Sched, setup: Setup)
    requires Shape(s) && s.ended.None?
    ensures var (s', out) := Admit(s, setup);
            && (s'.ended.None? ==> Held(s') + Answered(out) == Held(s))
            && Held(s') + Answered(out) <= Held(s)
            && (s'.ended.Some? ==> s'.ended.value.Unwritten?)
    decreases |s.queued|
  {
    if s.stateful.Some? || |s.running| >= LIMIT || s.queued == [] {
    } else {
      LaunchFlow(s);
      if s.queued[0].mode.Parallel? {
        AdmitFlow(Launch(s), setup);
      } else if setup.PrepareFailed? {
        AnsweredOne(ResultOf(Errored(s.queued[0].execute.requestId, SetupMessage(setup.why))));
      }
    }
  }

  lemma FlagKeys(m: map<ExecId, Slot>, rid: ExecId, slot: Slot)
    requires rid in m
    ensures m[rid := slot].Keys == m.Keys
  {
  }

  lemma CancelledFlow(s: Sched, rid: ExecId)
    requires Shape(s)
    ensures Held(Cancelled(s, rid).0) + Answered(Cancelled(s, rid).1) == Held(s)
  {
    hide Shape, JobIds, Answered;
    if rid in s.running {
      FlagKeys(s.running, rid, s.running[rid].(cancelled := true));
      NothingAnswered();
    } else {
      var i := Position(s.queued, rid);
      if i < |s.queued| {
        JobIdsRemove(s.queued, i, RemoveAt(s.queued, i));
        AnsweredOne(ResultOf(Withdrawal(rid)));
      } else {
        NothingAnswered();
      }
    }
  }

  lemma NothingAnswered()
    ensures Answered([]) == multiset{}
  {
  }

  lemma FinishFlow(s: Sched, rid: ExecId, left: Option<Shell>)
    requires rid in s.running
    ensures Held(Finish(s, rid, left)) + multiset{rid} == Held(s)
  {
    hide JobIds;
    KeysRemove(s.running, rid);
  }

  /** The running command is answered for, and kept: what is owed is the rest. */
  lemma UnreadableFlow(s: Sched, rid: ExecId, end: End)
    requires rid in s.running && (end == Stuck(rid) || (end.Unreadable? && end.requestId == rid))
    ensures Owed(s.(ended := Some(end))) + multiset{rid} == Held(s)
  {
    hide JobIds;
    KeysRemove(s.running, rid);
  }

  lemma CompleteFlow(s: Sched, result: ResultFrame, snapshot: Result<Shell, string>, sendOk: bool)
    requires result.requestId in s.running && s.ended.None?
    ensures var (s', out) := Complete(s, result, snapshot, sendOk);
            && (s'.ended.None? ==> Held(s') + Answered(out) == Held(s))
            && Owed(s') + Answered(out) <= Held(s)
  {
    hide Held, Answered, Finish;
    var rid := result.requestId;
    var (s', out) := Complete(s, result, snapshot, sendOk);
    NothingAnswered();
    if s.stateful == Some(rid) && snapshot.Err? {
      UnreadableFlow(s, rid, s'.ended.value);
      AnsweredOne(out[0]);
    } else {
      var left := if s.stateful == Some(rid) then Some(snapshot.value) else None;
      FinishFlow(s, rid, left);
      FinishEnds(s, rid, left);
      AnsweredOne(ResultOf(result));
      SameHeld(Finish(s, rid, left), s');
    }
  }

  lemma FinishEnds(s: Sched, rid: ExecId, left: Option<Shell>)
    ensures Finish(s, rid, left).ended == s.ended
  {
  }

  lemma AcceptFlow(s: Sched, execute: Execute, mode: Mode)
    ensures Held(Accept(s, execute, mode).0) + Answered(Accept(s, execute, mode).1)
            == Held(s) + multiset{execute.requestId}
  {
    JobIdsAppend(s.queued, Job(execute, mode, |s.book|));
    AnsweredOne(ResultOf(Errored(execute.requestId, REFUSED)));
  }

  lemma AbortFlow(s: Sched, rid: ExecId)
    requires rid in s.running
    ensures Owed(Abort(s, rid).0) + Answered(Abort(s, rid).1) <= Held(s)
  {
    hide Held;
    AnsweredOne(Abort(s, rid).1[0]);
    UnreadableFlow(s, rid, Stuck(rid));
  }

  /** A step that does not end the session neither loses a command nor answers
      one twice: what is held afterwards and what was answered is what was held
      before and what arrived. A step that ends it answers only such commands,
      and holds no command it has answered but the one it gave up. */
  lemma StepFlow(s: Sched, e: Event)
    requires Shape(s) && Legal(s, e) && s.ended.None?
    ensures Step(s, e).0.ended.None? ==> Held(Step(s, e).0) + Answered(Step(s, e).1) == Held(s) + Offered(e)
    ensures Owed(Step(s, e).0) + Answered(Step(s, e).1) <= Held(s) + Offered(e)
  {
    hide JobIds, Answered, Held, Admit, Accept, Cancelled, Complete;
    NothingAnswered();
    EndsNot(s, e);
    match e
    case Admission(setup) => AdmitFlow(s, setup);
    case RunFrame(execute, mode) => AcceptFlow(s, execute, mode);
    case CancelFrame(rid) => CancelledFlow(s, rid);
    case JobResult(result, snapshot, sendOk) => CompleteFlow(s, result, snapshot, sendOk);
    case JobAbort(rid) => AbortFlow(s, rid);
    case _ => SameHeld(s, Step(s, e).0);
  }

  /** Taking a command in or withdrawing one does not end the loop. */
  lemma EndsNot(s: Sched, e: Event)
    ensures e.RunFrame? ==> Accept(s, e.execute, e.mode).0.ended == s.ended
    ensures e.CancelFrame? ==> Cancelled(s, e.requestId).0.ended == s.ended
  {
  }

  lemma SameHeld(s: Sched, s': Sched)
    requires s'.queued == s.queued && s'.running == s.running
    ensures Held(s') == Held(s)
  {
  }

  /** What the loop gives up is its running stateful command. */
  predicate GivesUpOwn(s: Sched) { GivenUp(s).Some? ==> s.stateful == GivenUp(s) }

  lemma StepGivesUp(s: Sched, e: Event)
    requires Shape(s) && Legal(s, e) && s.ended.None?
    ensures GivesUpOwn(Step(s, e).0)
  {
    if e.Admission? {
      AdmitFlow(s, e.setup);
    }
  }

  // ------------------------------------------------------------------- answers

  /** The stateful command an admission reaches: the first one queued, if there is room up to it. */
  predicate Reached(s: Sched, i: nat) {
    && s.stateful.None? && i < |s.queued| && s.queued[i].mode.Stateful?
    && (forall j :: 0 <= j < i ==> s.queued[j].mode.Parallel?)
    && |s.running| + i < 32
  }

  /** What the loop answers to an event, field by field. */
  ghost predicate Says(s: Sched, e: Event, r: ResultFrame) {
    match e
    case Admission(setup) =>
      setup.PrepareFailed?
      && exists i: nat ::
           Reached(s, i) && r == ResultFrame(s.queued[i].execute.requestId, None, None, false,
                                             Some("stateful command setup: " + setup.why))
    case RunFrame(execute, _) =>
      && (|| execute.requestId in s.running || Queued(s.queued, execute.requestId)
          || |s.running| + |s.queued| >= 32)
      && r == ResultFrame(execute.requestId, None, None, false,
                          Some("duplicate job or session concurrency limit reached"))
    case CancelFrame(rid) =>
      rid !in s.running && Queued(s.queued, rid)
      && r == ResultFrame(rid, None, None, true, Some("cancelled before start"))
    case JobResult(result, snapshot, sendOk) =>
      if s.stateful == Some(result.requestId) && snapshot.Err?
      then r == result.(error := Some("could not read completed shell state: " + snapshot.error))
      else sendOk && r == result
    case JobAbort(rid) => r == ResultFrame(rid, None, None, true, Some("stateful command did not stop"))
    case CloseFrame => false
    case Disconnect => false
    case ShellExit => false
  }

  /** How the loop ends on an event, if it does. */
  ghost predicate EndsWith(s: Sched, e: Event, end: End) {
    match e
    case Admission(setup) => setup.WriteFailed? && (exists i: nat :: Reached(s, i)) && end == Unwritten(setup.why)
    case RunFrame(_, _) => false
    case CancelFrame(_) => false
    case JobResult(result, snapshot, sendOk) =>
      if s.stateful == Some(result.requestId) && snapshot.Err?
      then end == Unreadable(result.requestId, snapshot.error)
      else !sendOk && end == Lost
    case JobAbort(rid) => end == Stuck(rid)
    case CloseFrame => end == Over
    case Disconnect => end == Lost
    case ShellExit => end == Over
  }

  lemma ReachedNext(s: Sched, i: nat)
    requires Shape(s) && s.queued != [] && s.queued[0].mode.Parallel? && i > 0
    ensures Reached(s, i) <==> Reached(Launch(s), i - 1)
  {
    var rid := s.queued[0].execute.requestId;
    assert Launch(s).running.Keys == s.running.Keys + {rid};
    assert |Launch(s).running| == |s.running| + 1;
    assert forall j :: 0 <= j < |s.queued| - 1 ==> s.queued[1..][j] == s.queued[j + 1];
  }

  /** What admission does with the stateful command it reaches, if it reaches one. */
  lemma {:induction false} AdmitReaches(s: Sched, setup: Setup)
    requires Shape(s) && s.ended.None?
    ensures forall i: nat :: Reached(s, i) ==> SetUp(s, setup, s.queued[i].execute.requestId)
    ensures (forall i: nat :: !Reached(s, i)) ==> Admit(s, setup).1 == [] && Admit(s, setup).0.ended == None
    decreases |s.queued|
  {
    if s.stateful.Some? || |s.running| >= LIMIT || s.queued == [] {
    } else if s.queued[0].mode.Parallel? {
      LaunchFlow(s);
      var s' := Launch(s);
      AdmitReaches(s', setup);
      forall i: nat | Reached(s, i) ensures SetUp(s, setup, s.queued[i].execute.requestId) {
        ReachedNext(s, i);
        assert s'.queued[i - 1] == s.queued[i];
      }
      if forall i: nat :: !Reached(s, i) {
        forall i: nat | Reached(s', i) ensures false {
          ReachedNext(s, i + 1);
        }
      }
    } else {
      assert Reached(s, 0);
      assert SetUp(s, setup, s.queued[0].execute.requestId);
      forall i: nat | Reached(s, i) ensures i == 0 {
        OneReached(s, i, 0);
      }
    }
  }

  /** A stateful command was set up, or not, and answered for if it could not be prepared. */
  predicate SetUp(s: Sched, setup: Setup, rid: ExecId) {
    var (s', out) := Admit(s, setup);
    && out == (if setup.PrepareFailed?
               then [ResultOf(ResultFrame(rid, None, None, false, Some("stateful command setup: " + setup.why)))]
               else [])
    && s'.ended == (if setup.WriteFailed? then Some(Unwritten(setup.why)) else None)
  }

  lemma AdmitSays(s: Sched, setup: Setup, r: ResultFrame, end: End)
    requires Shape(s) && s.ended.None?
    ensures var (s', out) := Admit(s, setup);
            && |out| <= 1 && (out != [] ==> out[0].ResultOf?)
            && (Says(s, Admission(setup), r) <==> out == [ResultOf(r)])
            && (EndsWith(s, Admission(setup), end) <==> s'.ended == Some(end))
  {
    hide Admit, Shape;
    AdmitReaches(s, setup);
    if i: nat :| Reached(s, i) {
      assert SetUp(s, setup, s.queued[i].execute.requestId);
      forall j: nat | Reached(s, j) ensures j == i {
        OneReached(s, i, j);
      }
    }
  }

  lemma OneReached(s: Sched, i: nat, j: nat)
    requires Reached(s, i) && Reached(s, j)
    ensures i == j
  {
  }

  lemma CancelSays(s: Sched, rid: ExecId, r: ResultFrame)
    ensures Says(s, CancelFrame(rid), r) <==> Cancelled(s, rid).1 == [ResultOf(r)]
    ensures |Cancelled(s, rid).1| <= 1 && (Cancelled(s, rid).1 != [] ==> Cancelled(s, rid).1[0].ResultOf?)
  {
    var i := Position(s.queued, rid);
    if i < |s.queued| {
      assert Queued(s.queued, rid);
    }
  }

  /** For every arm of the loop: it writes at most one frame, an answer, and it is
      the one spelled out above; and it ends exactly as spelled out above. */
  lemma LoopAnswers(s: Sched, e: Event, r: ResultFrame, end: End)
    requires Shape(s) && s.ended.None?
    ensures var (s', out) := Step(s, e);
            && |out| <= 1 && (out != [] ==> out[0].ResultOf?)
            && (Says(s, e, r) <==> out == [ResultOf(r)])
            && (EndsWith(s, e, end) <==> s'.ended == Some(end))
  {
    hide Shape, Admit, Cancelled, Reached;
    match e
    case Admission(setup) => AdmitSays(s, setup, r, end);
    case CancelFrame(rid) =>
      CancelSays(s, rid, r);
      EndsNot(s, e);
    case JobResult(result, snapshot, _) =>
      FinishEnds(s, result.requestId, if snapshot.Ok? then Some(snapshot.value) else None);
      FinishEnds(s, result.requestId, None);
    case _ =>
  }

  // ------------------------------------------------------------------ history

  /** A line of the book is only ever started, spoiled or withdrawn once, and a
      started line is finished once; what it was started with never changes. */
  predicate Evolves(a: Ticket, b: Ticket) {
    || b == a
    || (a.fate.Waiting? && b == a.(fate := b.fate)
        && (b.fate.Started? ==> b.fate.given.requestId == a.execute.requestId))
    || (IsRunning(a) && b == a.(fate := Started(a.fate.given, true)))
  }

  ghost predicate BookGrows(a: seq<Ticket>, b: seq<Ticket>) {
    |a| <= |b| && forall t :: 0 <= t < |a| ==> Evolves(a[t], b[t])
  }

  lemma {:induction false} AdmitHistory(s: Sched, setup: Setup)
    requires QueueBook(s.queued, s.book)
    ensures BookGrows(s.book, Admit(s, setup).0.book)
    decreases |s.queued|
  {
    if s.ended.Some? || s.stateful.Some? || |s.running| >= LIMIT || s.queued == [] {
    } else if s.queued[0].mode.Parallel? {
      RemoveFromQueue(s.queued, s.book, 0, s.queued[1..], Started(Given(s, s.queued[0].execute), false));
      AdmitHistory(Launch(s), setup);
      var k := s.queued[0].ticket;
      var book', book'' := Launch(s).book, Admit(s, setup).0.book;
      forall t | 0 <= t < |s.book| ensures Evolves(s.book[t], book''[t]) {
        assert Evolves(book'[t], book''[t]);
      }
    }
  }

  lemma MarkGrows(book: seq<Ticket>, t: nat, fate: Fate)
    requires t < |book| ==> Evolves(book[t], book[t].(fate := fate))
    ensures BookGrows(book, Mark(book, t, fate))
  {
  }

  lemma FinishHistory(s: Sched, rid: ExecId, left: Option<Shell>)
    requires RunningBook(s.running, s.stateful, s.book)
    ensures BookGrows(s.book, Finish(s, rid, left).book)
  {
    if rid in s.running {
      var t := s.running[rid].ticket;
      MarkGrows(s.book, t, Started(s.book[t].fate.given, true));
    }
  }

  lemma WithdrawHistory(s: Sched, rid: ExecId)
    requires QueueBook(s.queued, s.book)
    ensures BookGrows(s.book, Cancelled(s, rid).0.book)
  {
    var i := Position(s.queued, rid);
    if i < |s.queued| {
      MarkGrows(s.book, s.queued[i].ticket, Withdrawn);
    }
  }

  lemma StepHistory(s: Sched, e: Event)
    requires Inv(s)
    ensures BookGrows(s.book, Step(s, e).0.book)
  {
    hide QueueBook, RunningBook, Shape, InOrder, Barrier, Admit, Cancelled, Finish;
    if s.ended.None? {
      match e
      case Admission(setup) => AdmitHistory(s, setup);
      case CancelFrame(rid) => WithdrawHistory(s, rid);
      case JobResult(result, snapshot, _) =>
        FinishHistory(s, result.requestId, None);
        FinishHistory(s, result.requestId, if snapshot.Ok? then Some(snapshot.value) else None);
      case _ =>
    }
  }

  // ----------------------------------------------------------------- all runs

  function Run(s: Sched, events: seq<Event>): Sched
    decreases |events|
  {
    if events == [] then s else Run(Step(s, events[0]).0, events[1..])
  }

  ghost predicate LegalRun(s: Sched, events: seq<Event>)
    decreases |events|
  {
    events != [] ==> Legal(s, events[0]) && LegalRun(Step(s, events[0]).0, events[1..])
  }

  lemma {:induction false} RunInv(s: Sched, events: seq<Event>)
    requires Inv(s) && LegalRun(s, events)
    ensures Inv(Run(s, events))
    decreases |events|
  {
    if events != [] {
      StepInv(s, events[0]);
      RunInv(Step(s, events[0]).0, events[1..]);
    }
  }

  /** For every order of submissions, cancels, completions and admissions:
      commands start in submission order, at most one stateful command runs, and
      no command has started while a stateful command accepted before it was
      neither finished, nor failed in setup, nor cancelled before start. */
  lemma OrderingBarrier(shell: Shell, home: Option<string>, dropTo: Option<DropTo>, events: seq<Event>)
    requires LegalRun(Start(shell, home, dropTo), events)
    ensures var book := Run(Start(shell, home, dropTo), events).book;
            && (forall t, u :: 0 <= t < u < |book| && book[u].fate.Started? ==> !book[t].fate.Waiting?)
            && (forall t, u :: 0 <= t < u < |book| && book[u].fate.Started? && book[t].mode.Stateful? ==>
                  Resolved(book[t]))
            && (forall t, u :: 0 <= t < u < |book| && IsRunning(book[t]) && IsRunning(book[u]) ==>
                  book[t].mode.Parallel?)
  {
    RunInv(Start(shell, home, dropTo), events);
  }

  /** `running` and `queued` stay disjoint, duplicate-free and at most 32 in all,
      and admission never leaves a command queued for lack of room: when the loop
      reaches its `select!` with a non-empty queue, a stateful command is running,
      or this very admission answered a failed stateful setup. */
  lemma SchedulerBound(shell: Shell, home: Option<string>, dropTo: Option<DropTo>, events: seq<Event>, setup: Setup)
    requires LegalRun(Start(shell, home, dropTo), events)
    ensures var s := Run(Start(shell, home, dropTo), events);
            var (s', out) := Admit(s, setup);
            && Shape(s) && Shape(s')
            && (s.ended.None? && s'.ended.None? && s'.queued != [] ==>
                  s'.stateful.Some? || (setup.PrepareFailed? && out != []))
            && (s.queued != [] ==> |s.running| < LIMIT)
  {
    RunInv(Start(shell, home, dropTo), events);
    AdmitFills(Run(Start(shell, home, dropTo), events), setup);
  }

  lemma {:induction false} AdmitFills(s: Sched, setup: Setup)
    requires Inv(s)
    ensures var (s', out) := Admit(s, setup);
            && Inv(s')
            && (s.ended.None? && s'.ended.None? && s'.queued != [] ==>
                  s'.stateful.Some? || (setup.PrepareFailed? && out != []))
    decreases |s.queued|
  {
    AdmitInv(s, setup);
    if s.ended.None? && s.stateful.None? && |s.running| < LIMIT && s.queued != [] && s.queued[0].mode.Parallel? {
      LaunchInv(s);
      AdmitFills(Launch(s), setup);
    }
  }

  // ---------------------------------------------------- modes, for the server

  /** `modes` agrees with everything the worker holds. */
  ghost predicate ModesIn(s: Sched, modes: map<ExecId, Mode>) {
    && (forall i :: 0 <= i < |s.queued| ==>
          s.queued[i].execute.requestId in modes && modes[s.queued[i].execute.requestId] == s.queued[i].mode)
    && (s.stateful.Some? ==> s.stateful.value in modes && modes[s.stateful.value].Stateful?)
  }

  lemma {:induction false} AdmitModes(s: Sched, setup: Setup, modes: map<ExecId, Mode>)
    requires ModesIn(s, modes)
    ensures ModesIn(Admit(s, setup).0, modes)
    decreases |s.queued|
  {
    if s.ended.None? && s.stateful.None? && |s.running| < LIMIT && s.queued != [] && s.queued[0].mode.Parallel? {
      AdmitModes(Launch(s), setup, modes);
    }
  }

  lemma CancelledModes(s: Sched, rid: ExecId, modes: map<ExecId, Mode>)
    requires ModesIn(s, modes)
    ensures ModesIn(Cancelled(s, rid).0, modes)
  {
    var i := Position(s.queued, rid);
    if rid !in s.running && i < |s.queued| {
      var q' := RemoveAt(s.queued, i);
      assert forall j :: 0 <= j < |q'| ==> q'[j] == s.queued[if j < i then j else j + 1];
    }
  }

  lemma CompleteModes(s: Sched, result: ResultFrame, snapshot: Result<Shell, string>, sendOk: bool,
                      modes: map<ExecId, Mode>)
    requires ModesIn(s, modes)
    ensures ModesIn(Complete(s, result, snapshot, sendOk).0, modes)
  {
  }

  lemma AcceptModes(s: Sched, execute: Execute, mode: Mode, modes: map<ExecId, Mode>)
    requires ModesIn(s, modes) && execute.requestId in modes && modes[execute.requestId] == mode
    ensures ModesIn(Accept(s, execute, mode).0, modes)
  {
    hide Refused;
  }

  lemma StepModes(s: Sched, e: Event, modes: map<ExecId, Mode>)
    requires ModesIn(s, modes)
    requires e.RunFrame? ==> e.execute.requestId in modes && modes[e.execute.requestId] == e.mode
    ensures ModesIn(Step(s, e).0, modes)
  {
    hide Admit, Accept, Cancelled, Complete;
    if s.ended.None? {
      match e
      case Admission(setup) => AdmitModes(s, setup, modes);
      case RunFrame(execute, mode) => AcceptModes(s, execute, mode, modes);
      case CancelFrame(rid) => CancelledModes(s, rid, modes);
      case JobResult(result, snapshot, sendOk) => CompleteModes(s, result, snapshot, sendOk, modes);
      case _ =>
    }
  }

  // ---------------------------------------------------------------- the object

  /** The loop's local variables and one method per arm of its `select!`. The
      frames a method returns are the ones it writes to the dispatch socket. */
  class SessionScheduler {
    const dropTo: Option<DropTo>
    var currentWorkdir: string
    var currentEnv: map<string, string>
    var queued: seq<Job>
    var running: map<ExecId, Slot>
    var statefulRunning: Option<ExecId>
    var ended: Option<End>
    var accepted: nat
    ghost var book: seq<Ticket>

    ghost predicate Valid()
      reads this
    {
      accepted == |book|
    }

    ghost function View(): Sched
      reads this
    {
      Sched(dropTo, Shell(currentWorkdir, currentEnv), queued, running, statefulRunning, ended, book)
    }

    constructor (workingDir: string, env: map<string, string>, home: Option<string>, dropTo: Option<DropTo>)
      ensures Valid() && View() == Start(Shell(workingDir, env), home, dropTo)
      ensures Initial(Shell(workingDir, env), home, Shell(currentWorkdir, currentEnv)) && this.dropTo == dropTo
    {
      this.dropTo := dropTo;
      currentWorkdir := workingDir;
      currentEnv := env["TERM" := "xterm-256color"];
      if home.Some? {
        currentEnv := env["TERM" := "xterm-256color"]["HOME" := home.value];
      }
      queued, running, statefulRunning, ended, accepted, book := [], map[], None, None, 0, [];
    }

    /** The admission loop. `setup` is the fate of the stateful command it may reach. */
    method AdmitQueued(setup: Setup) returns (out: seq<Frame>)
      requires Valid()
      modifies this
      ensures Valid() && (View(), out) == Step(old(View()), Admission(setup))
    {
      out := [];
      if ended.Some? { return; }
      while statefulRunning.None? && |running| < LIMIT && queued != []
        invariant Valid() && ended.None? && out == []
        invariant Admit(View(), setup) == Admit(old(View()), setup)
        decreases |queued|
      {
        var job := queued[0];
        ghost var before := View();
        queued := queued[1..];
        var rid := job.execute.requestId;
        ghost var given := job.execute.(workingDir := currentWorkdir, env := currentEnv, dropTo := dropTo);
        if job.mode == Stateful {
          match setup {
            case Prepared =>
              statefulRunning := Some(rid);
              running := running[rid := Slot(job.ticket, false)];
              book := Mark(book, job.ticket, Started(given, false));
            case PrepareFailed(why) =>
              out := [ResultOf(Errored(rid, SetupMessage(why)))];
              book := Mark(book, job.ticket, SetupFailed);
            case WriteFailed(why) =>
              ended := Some(Unwritten(why));
              book := Mark(book, job.ticket, SetupFailed);
          }
          return;
        }
        running := running[rid := Slot(job.ticket, false)];
        book := Mark(book, job.ticket, Started(given, false));
        assert View() == Launch(before);
      }
    }

    /** A `SessionRun` frame for this session. */
    method OnSessionRun(execute: Execute, mode: Mode) returns (out: seq<Frame>)
      requires Valid()
      modifies this
      ensures Valid() && (View(), out) == Step(old(View()), RunFrame(execute, mode))
      ensures old(ended).None? ==>
                var rid := execute.requestId;
                if rid in old(running) || Queued(old(queued), rid) || |old(running)| + |old(queued)| >= 32
                then queued == old(queued)
                     && out == [ResultOf(ResultFrame(rid, None, None, false,
                                                     Some("duplicate job or session concurrency limit reached")))]
                else queued == old(queued) + [Job(execute, mode, old(accepted))] && out == []
    {
      out := [];
      if ended.Some? { return; }
      var rid := execute.requestId;
      if rid in running || Queued(queued, rid) || |running| + |queued| >= LIMIT {
        out := [ResultOf(Errored(rid, REFUSED))];
        return;
      }
      queued := queued + [Job(execute, mode, accepted)];
      accepted := accepted + 1;
      book := book + [Ticket(execute, mode, Waiting)];
    }

    /** A `Cancel` frame. */
    method OnCancel(rid: ExecId) returns (out: seq<Frame>)
      requires Valid()
      modifies this
      ensures Valid() && (View(), out) == Step(old(View()), CancelFrame(rid))
      ensures old(ended).None? ==>
                if rid in old(running)
                then running == old(running)[rid := Slot(old(running)[rid].ticket, true)] && out == []
                else running == old(running)
                     && out == if Queued(old(queued), rid)
                               then [ResultOf(ResultFrame(rid, None, None, true, Some("cancelled before start")))]
                               else []
    {
      out := [];
      if ended.Some? { return; }
      if rid in running {
        running := running[rid := running[rid].(cancelled := true)];
      } else {
        var pos := Position(queued, rid);
        if pos < |queued| {
          book := Mark(book, queued[pos].ticket, Withdrawn);
          queued := RemoveAt(queued, pos);
          out := [ResultOf(Withdrawal(rid))];
        }
      }
    }

    /** A report from a job this loop spawned. */
    method OnJobResult(result: ResultFrame, snapshot: Result<Shell, string>, sendOk: bool) returns (out: seq<Frame>)
      requires Valid() && result.requestId in running
      modifies this
      ensures Valid() && (View(), out) == Step(old(View()), JobResult(result, snapshot, sendOk))
      ensures old(ended).None? ==>
                if old(statefulRunning) == Some(result.requestId) && snapshot.Err?
                then var error := "could not read completed shell state: " + snapshot.error;
                     && out == [ResultOf(ResultFrame(result.requestId, result.exitCode, result.exitSignal,
                                                     result.cancelled, Some(error)))]
                     && ended == Some(Unreadable(result.requestId, snapshot.error)) && running == old(running)
                else && out == (if sendOk then [ResultOf(result)] else [])
                     && ended == (if sendOk then None else Some(Lost))
                     && running == old(running) - {result.requestId}
                     && (if old(statefulRunning) == Some(result.requestId)
                         then statefulRunning == None && currentWorkdir == snapshot.value.dir
                              && currentEnv == snapshot.value.env
                         else statefulRunning == old(statefulRunning) && currentWorkdir == old(currentWorkdir)
                              && currentEnv == old(currentEnv))
    {
      out := [];
      if ended.Some? { return; }
      ghost var before := View();
      var rid := result.requestId;
      if statefulRunning == Some(rid) {
        match snapshot {
          case Ok(shell) =>
            currentWorkdir, currentEnv := shell.dir, shell.env;
          case Err(why) =>
            var error := Some(SnapshotMessage(why));
            ended := Some(Unreadable(rid, why));
            out := [ResultOf(result.(error := error))];
            return;
        }
        statefulRunning := None;
      }
      book := Finish(before, rid, None).book;
      running := running - {rid};
      assert running == old(running) - {rid};
      assert View() == Finish(before, rid, if before.stateful == Some(rid) then Some(snapshot.value) else None);
      if sendOk {
        out := [ResultOf(result)];
      } else {
        ended := Some(Lost);
      }
    }

    /** The stateful command's watcher gave up on it. */
    method OnJobAbort(rid: ExecId) returns (out: seq<Frame>)
      requires Valid() && statefulRunning == Some(rid)
      modifies this
      ensures Valid() && (View(), out) == Step(old(View()), JobAbort(rid))
      ensures old(ended).None? ==>
                && out == [ResultOf(ResultFrame(rid, None, None, true, Some("stateful command did not stop")))]
                && ended == Some(Stuck(rid)) && running == old(running)
    {
      out := [];
      if ended.Some? { return; }
      ended := Some(Stuck(rid));
      out := [ResultOf(ResultFrame(rid, None, None, true, Some(STUCK)))];
    }

    /** `SessionClose` for this session, or the shell's end of file (`lost` false);
        a dead socket or a lapsed lease (`lost` true). */
    method Leave(lost: bool)
      requires Valid()
      modifies this
      ensures Valid() && View() == Step(old(View()), if lost then Disconnect else CloseFrame).0
      ensures View() == Step(old(View()), if lost then Disconnect else ShellExit).0
      ensures old(ended).None? ==> ended == Some(if lost then Lost else Over)
    {
      if ended.None? {
        ended := Some(if lost then Lost else Over);
      }
    }
  }
}
