/** What the commands of a session see, whatever the interleaving: the session
    loop of `Scheduler` together with the Bash process it drives and whatever is
    typed into it, against an interpreter that runs one command at a time. */
module Sequential {
  import opened Wrappers
  import opened Protocol
  import opened Scheduler

  /** The live Bash process: the shell state a snapshot shows, and the rest of
      its state (unexported variables, functions) that it does not. */
  datatype Bash = Bash(shell: Shell, vars: map<string, string>)

  /** The session's surroundings. `effect(t, b)` is the state in which the
      stateful command of ticket `t` leaves a Bash found in state `b`, whether it
      ran to its end or was interrupted; `typed(n, b)` is the state in which the
      `n`-th piece of terminal input leaves it; `bash` is the Bash the session
      starts with, `initial` what commands are given before the first stateful one. */
  datatype World = World(
    effect: (nat, Bash) -> Bash,
    typed: (nat, Bash) -> Bash,
    bash: Bash,
    initial: Shell,
    dropTo: Option<DropTo>)

  /** The loop together with the Bash process. `inputs` says, for each piece of
      terminal input so far, before which line of the book's effect it came. */
  datatype Live = Live(sched: Sched, bash: Bash, inputs: seq<nat>)

  /** One arm of the loop, or terminal input written to the shell. */
  datatype Happening = Loop(e: Event) | TerminalInput

  predicate ReportsStateful(s: Sched, e: Event) {
    && s.ended.None?
    && e.JobResult?
    && s.stateful == Some(e.result.requestId)
    && e.result.requestId in s.running
    && e.snapshot.Ok?
  }

  /** The first line of the book that may still start, or its end. */
  function NextTicket(s: Sched): nat { if s.queued == [] then |s.book| else s.queued[0].ticket }

  /** Where in the book terminal input belongs: with the running stateful command, or before the next one to start. */
  function Here(s: Sched): nat {
    if s.stateful.Some? && s.stateful.value in s.running then s.running[s.stateful.value].ticket else NextTicket(s)
  }

  function Type(w: World, l: Live): Live {
    Live(l.sched, w.typed(|l.inputs|, l.bash), l.inputs + [Here(l.sched)])
  }

  /** A step in which the snapshot read back is the one the Bash process wrote. */
  function LoopStep(w: World, l: Live, e: Event): Live {
    if ReportsStateful(l.sched, e) then
      var bash := w.effect(l.sched.running[e.result.requestId].ticket, l.bash);
      Live(Step(l.sched, e.(snapshot := Ok(bash.shell))).0, bash, l.inputs)
    else Live(Step(l.sched, e).0, l.bash, l.inputs)
  }

  /** Nothing is written to the shell of a session that is over. */
  function LiveStep(w: World, l: Live, h: Happening): Live {
    match h
    case Loop(e) => LoopStep(w, l, e)
    case TerminalInput => if l.sched.ended.Some? then l else Type(w, l)
  }

  predicate Sourced(t: Ticket) { t.mode.Stateful? && t.fate.Started? }

  /** The input that came before the effect of line `t`, in order. */
  function TypeAt(w: World, inputs: seq<nat>, t: nat, bash: Bash): Bash {
    if inputs == [] then bash
    else
      var n := |inputs| - 1;
      var bash' := TypeAt(w, inputs[..n], t, bash);
      if inputs[n] == t then w.typed(n, bash') else bash'
  }

  /** The sequential interpreter: run, in submission order, the stateful commands
      among the first `t` that were started at all, and the terminal input in its
      place among them. The second result is the last snapshot. */
  function Replay(w: World, book: seq<Ticket>, inputs: seq<nat>, t: nat): (Bash, Shell)
    requires t <= |book|
  {
    var (bash, shell) := Ran(w, book, inputs, t);
    (TypeAt(w, inputs, t, bash), shell)
  }

  /** The interpreter before the input that comes before line `t`. */
  function Ran(w: World, book: seq<Ticket>, inputs: seq<nat>, t: nat): (Bash, Shell)
    requires t <= |book|
  {
    if t == 0 then (w.bash, w.initial)
    else
      var (bash, shell) := Ran(w, book, inputs, t - 1);
      var bash' := TypeAt(w, inputs, t - 1, bash);
      if Sourced(book[t - 1]) then var bash'' := w.effect(t - 1, bash'); (bash'', bash''.shell) else (bash', shell)
  }

  // ------------------------------------------------------- the interpreter's laws

  lemma {:induction false} ReplayAgrees(w: World, book: seq<Ticket>, book': seq<Ticket>, inputs: seq<nat>, t: nat)
    requires t <= |book| && t <= |book'|
    requires forall u :: 0 <= u < t ==> Sourced(book[u]) == Sourced(book'[u])
    ensures Ran(w, book, inputs, t) == Ran(w, book', inputs, t)
  {
    if t > 0 {
      ReplayAgrees(w, book, book', inputs, t - 1);
    }
  }

  lemma {:induction false} NotTyped(w: World, inputs: seq<nat>, t: nat, bash: Bash)
    requires forall i :: 0 <= i < |inputs| ==> inputs[i] != t
    ensures TypeAt(w, inputs, t, bash) == bash
  {
    if inputs != [] {
      NotTyped(w, inputs[..|inputs| - 1], t, bash);
    }
  }

  /** No input comes after line `p`. */
  predicate Until(inputs: seq<nat>, p: nat) { forall i :: 0 <= i < |inputs| ==> inputs[i] <= p }

  /** Between two lines nothing happens if nothing was sourced and nothing typed. */
  lemma {:induction false} ReplayFlat(w: World, book: seq<Ticket>, inputs: seq<nat>, t: nat, u: nat)
    requires t <= u <= |book| && Until(inputs, t)
    requires forall v :: t <= v < u ==> !Sourced(book[v])
    ensures Replay(w, book, inputs, t) == Replay(w, book, inputs, u)
    decreases u - t
  {
    if t < u {
      ReplayFlat(w, book, inputs, t, u - 1);
      NotTyped(w, inputs, u, Ran(w, book, inputs, u).0);
    }
  }

  /** More input at line `p` changes nothing before it. */
  lemma {:induction false} TypedLater(w: World, book: seq<Ticket>, inputs: seq<nat>, p: nat, t: nat)
    requires t <= p && t <= |book|
    ensures Ran(w, book, inputs + [p], t) == Ran(w, book, inputs, t)
    ensures Replay(w, book, inputs + [p], t)
            == if t < p then Replay(w, book, inputs, t)
               else (w.typed(|inputs|, Replay(w, book, inputs, t).0), Replay(w, book, inputs, t).1)
  {
    if t > 0 {
      TypedLater(w, book, inputs, p, t - 1);
    }
    assert (inputs + [p])[..|inputs|] == inputs;
  }

  // ----------------------------------------------------------------- invariant

  /** Every stateful command started below this line has finished, and none above it has started. */
  function Frontier(s: Sched): nat {
    if s.stateful.Some? && s.stateful.value in s.running && s.running[s.stateful.value].ticket <= |s.book|
    then s.running[s.stateful.value].ticket else |s.book|
  }

  /** What a command is given when the shell state is `shell`. */
  predicate GivenWith(t: Ticket, shell: Shell, dropTo: Option<DropTo>) {
    t.fate.Started? ==> t.fate.given == t.execute.(workingDir := shell.dir, env := shell.env, dropTo := dropTo)
  }

  /** What a started command was given is what the sequential interpreter reaches. */
  ghost predicate Faithful(w: World, book: seq<Ticket>, inputs: seq<nat>) {
    forall t :: 0 <= t < |book| ==> GivenWith(book[t], Replay(w, book, inputs, t).1, w.dropTo)
  }

  ghost predicate LiveInv(w: World, l: Live) {
    && Inv(l.sched)
    && l.sched.dropTo == w.dropTo
    && (l.bash, l.sched.current) == Replay(w, l.sched.book, l.inputs, Frontier(l.sched))
    && Faithful(w, l.sched.book, l.inputs)
    && Until(l.inputs, Here(l.sched))
  }

  /** Where the loop stands in the book. */
  lemma Places(s: Sched)
    requires Inv(s)
    ensures Here(s) <= NextTicket(s) <= |s.book| && Here(s) <= Frontier(s) <= |s.book|
    ensures s.stateful.None? ==> Here(s) == NextTicket(s) && Frontier(s) == |s.book|
    ensures s.stateful.Some? ==> Here(s) == Frontier(s) < |s.book| && Sourced(s.book[Here(s)])
    ensures forall v :: (if s.stateful.Some? then Here(s) + 1 else Here(s)) <= v < |s.book| ==> !s.book[v].fate.Started?
  {
    hide Shape;
    if s.stateful.Some? {
      var k := Here(s);
      assert IsRunning(s.book[k]) && s.book[k].mode.Stateful?;
      if s.queued != [] {
        assert s.book[s.queued[0].ticket].fate.Waiting?;
      }
    } else if s.queued != [] {
      assert s.book[s.queued[0].ticket].fate.Waiting?;
    }
  }

  // ------------------------------------------------------------------- starting

  /** Starting the first waiting command leaves every earlier replay alone. */
  lemma StartReplay(w: World, book: seq<Ticket>, inputs: seq<nat>, k: nat, given: Execute)
    requires k < |book| && book[k].fate.Waiting? && InOrder(book) && Faithful(w, book, inputs) && Until(inputs, k)
    requires GivenWith(book[k].(fate := Started(given, false)), Replay(w, book, inputs, |book|).1, w.dropTo)
    ensures var book' := Mark(book, k, Started(given, false));
            && Replay(w, book', inputs, k) == Replay(w, book, inputs, |book|)
            && (book[k].mode.Parallel? ==> Replay(w, book', inputs, |book|) == Replay(w, book, inputs, |book|))
            && Faithful(w, book', inputs)
  {
    var book' := Mark(book, k, Started(given, false));
    forall v | k <= v < |book| ensures !book[v].fate.Started? {
    }
    ReplayFlat(w, book, inputs, k, |book|);
    ReplayAgrees(w, book, book', inputs, k);
    if book[k].mode.Parallel? {
      ReplayFlat(w, book', inputs, k, |book|);
    }
    forall t | 0 <= t < |book'| ensures GivenWith(book'[t], Replay(w, book', inputs, t).1, w.dropTo) {
      if t < k {
        ReplayAgrees(w, book, book', inputs, t);
        assert GivenWith(book[t], Replay(w, book, inputs, t).1, w.dropTo);
      }
    }
  }

  lemma LaunchLive(w: World, l: Live)
    requires LiveInv(w, l)
    requires l.sched.queued != [] && l.sched.stateful.None?
    ensures LiveInv(w, Live(Started1(l.sched), l.bash, l.inputs))
  {
    hide Faithful, Replay;
    var s := l.sched;
    LaunchInv(s);
    Places(s);
    Places(Started1(s));
    StartReplay(w, s.book, l.inputs, s.queued[0].ticket, Given(s, s.queued[0].execute));
    assert Here(Started1(s)) >= Here(s);
  }

  /** Nothing about which commands started, or with what, has changed. */
  predicate SameStart(a: Ticket, b: Ticket) {
    && a.execute == b.execute && a.mode == b.mode
    && (a.fate.Started? <==> b.fate.Started?)
    && (a.fate.Started? ==> a.fate.given == b.fate.given)
  }

  ghost predicate SameStarts(a: seq<Ticket>, b: seq<Ticket>) {
    && |a| <= |b|
    && (forall t :: 0 <= t < |a| ==> SameStart(a[t], b[t]))
    && (forall t :: |a| <= t < |b| ==> !b[t].fate.Started?)
  }

  lemma SameReplay(w: World, book: seq<Ticket>, book': seq<Ticket>, inputs: seq<nat>)
    requires SameStarts(book, book') && Until(inputs, |book|)
    ensures forall t :: 0 <= t <= |book| ==> Replay(w, book', inputs, t) == Replay(w, book, inputs, t)
    ensures Replay(w, book', inputs, |book'|) == Replay(w, book, inputs, |book|)
    ensures Faithful(w, book, inputs) ==> Faithful(w, book', inputs)
  {
    forall t | 0 <= t <= |book| ensures Replay(w, book', inputs, t) == Replay(w, book, inputs, t) {
      forall u | 0 <= u < t ensures Sourced(book'[u]) == Sourced(book[u]) {
        assert SameStart(book[u], book'[u]);
      }
      ReplayAgrees(w, book', book, inputs, t);
    }
    ReplayFlat(w, book', inputs, |book|, |book'|);
    if Faithful(w, book, inputs) {
      forall t | 0 <= t < |book'| ensures GivenWith(book'[t], Replay(w, book', inputs, t).1, w.dropTo) {
        if t < |book| {
          assert SameStart(book[t], book'[t]) && GivenWith(book[t], Replay(w, book, inputs, t).1, w.dropTo);
        }
      }
    }
  }

  /** A step that starts nothing and leaves the shell state alone. */
  lemma IdleLive(w: World, l: Live, s': Sched)
    requires LiveInv(w, l) && Inv(s') && SameStarts(l.sched.book, s'.book)
    requires s'.stateful == l.sched.stateful && s'.current == l.sched.current && s'.dropTo == l.sched.dropTo
    requires s'.stateful.Some? ==> s'.running[s'.stateful.value].ticket == l.sched.running[s'.stateful.value].ticket
    requires NextTicket(s') >= NextTicket(l.sched)
    ensures LiveInv(w, Live(s', l.bash, l.inputs))
  {
    hide Faithful, Replay, Shape, QueueBook, InOrder, Barrier;
    Places(l.sched);
    Places(s');
    SameReplay(w, l.sched.book, s'.book, l.inputs);
  }

  /** Taking a line out of the queue moves its head back, if it moves it at all. */
  lemma NextLater(s: Sched, i: nat, fate: Fate)
    requires Inv(s) && i < |s.queued| && s.queued[i].ticket < |s.book| && !fate.Waiting?
    ensures var s' := s.(queued := RemoveAt(s.queued, i), book := Mark(s.book, s.queued[i].ticket, fate));
            NextTicket(s') >= NextTicket(s)
  {
    hide Shape, RunningBook, InOrder, Barrier;
    Places(s);
    var q' := RemoveAt(s.queued, i);
    if q' != [] {
      assert q'[0] == s.queued[if i == 0 then 1 else 0];
    }
  }

  lemma SpoilLive(w: World, l: Live)
    requires LiveInv(w, l) && l.sched.queued != []
    ensures LiveInv(w, Live(Spoil(l.sched), l.bash, l.inputs))
  {
    hide Faithful, Replay, Until;
    SpoilInv(l.sched);
    NextLater(l.sched, 0, SetupFailed);
    assert RemoveAt(l.sched.queued, 0) == l.sched.queued[1..];
    IdleLive(w, l, Spoil(l.sched));
  }

  lemma EndLive(w: World, l: Live, end: End)
    requires LiveInv(w, l)
    ensures LiveInv(w, Live(l.sched.(ended := Some(end)), l.bash, l.inputs))
  {
    hide Faithful, Replay;
  }

  lemma {:induction false} AdmitLive(w: World, l: Live, setup: Setup)
    requires LiveInv(w, l)
    ensures LiveInv(w, Live(Admit(l.sched, setup).0, l.bash, l.inputs))
    decreases |l.sched.queued|
  {
    hide LiveInv;
    var s := l.sched;
    if s.ended.Some? || s.stateful.Some? || |s.running| >= LIMIT || s.queued == [] {
    } else if s.queued[0].mode.Parallel? {
      LaunchLive(w, l);
      AdmitLive(w, Live(Launch(s), l.bash, l.inputs), setup);
    } else {
      LaunchLive(w, l);
      SpoilLive(w, l);
      if setup.WriteFailed? {
        EndLive(w, Live(Spoil(s), l.bash, l.inputs), Admit(s, setup).0.ended.value);
      }
    }
  }

  // ------------------------------------------------------------------ finishing

  lemma FinishStarts(book: seq<Ticket>, k: nat)
    requires k < |book| && book[k].fate.Started?
    ensures SameStarts(book, Mark(book, k, Started(book[k].fate.given, true)))
  {
  }

  /** Finishing the last command started moves the frontier to the end of the book. */
  lemma FinishedReplay(w: World, book: seq<Ticket>, inputs: seq<nat>, k: nat, bash: Bash)
    requires k < |book| && Sourced(book[k]) && Faithful(w, book, inputs) && Until(inputs, k)
    requires Replay(w, book, inputs, k).0 == bash
    requires forall v :: k < v < |book| ==> !Sourced(book[v])
    ensures var book' := Mark(book, k, Started(book[k].fate.given, true));
            var bash' := w.effect(k, bash);
            Replay(w, book', inputs, |book'|) == (bash', bash'.shell) && Faithful(w, book', inputs)
  {
    var book' := Mark(book, k, Started(book[k].fate.given, true));
    FinishStarts(book, k);
    NotTyped(w, inputs, k + 1, w.effect(k, bash));
    ReplayFlat(w, book, inputs, k + 1, |book|);
    hide Faithful, SameStarts;
    SameReplay(w, book, book', inputs);
  }

  /** A report from the running stateful command advances the interpreter by that command. */
  lemma FinishLive(w: World, l: Live, rid: ExecId, bash': Bash)
    requires LiveInv(w, l) && rid in l.sched.running && l.sched.stateful == Some(rid)
    requires bash' == w.effect(l.sched.running[rid].ticket, l.bash)
    ensures LiveInv(w, Live(Finish(l.sched, rid, Some(bash'.shell)), bash', l.inputs))
  {
    hide Faithful, Replay;
    var s, s' := l.sched, Finish(l.sched, rid, Some(bash'.shell));
    FinishInv(s, rid, Some(bash'.shell));
    Places(s);
    Places(s');
    hide Shape, QueueBook, RunningBook, InOrder, Barrier;
    FinishedReplay(w, s.book, l.inputs, Here(s), l.bash);
    assert s'.book == Mark(s.book, Here(s), Started(s.book[Here(s)].fate.given, true));
    assert NextTicket(s') == NextTicket(s);
  }

  lemma ReportStep(w: World, l: Live, e: Event)
    requires ReportsStateful(l.sched, e)
    ensures var rid := e.result.requestId;
            var bash' := w.effect(l.sched.running[rid].ticket, l.bash);
            var s' := Finish(l.sched, rid, Some(bash'.shell));
            LoopStep(w, l, e) == Live(if e.sendOk then s' else s'.(ended := Some(Lost)), bash', l.inputs)
  {
  }

  /** A report from the running stateful command advances the interpreter by that command. */
  lemma ReportLive(w: World, l: Live, e: Event)
    requires LiveInv(w, l) && ReportsStateful(l.sched, e)
    ensures LiveInv(w, LoopStep(w, l, e))
  {
    hide LiveInv, Finish;
    var rid := e.result.requestId;
    var bash' := w.effect(l.sched.running[rid].ticket, l.bash);
    var s' := Finish(l.sched, rid, Some(bash'.shell));
    ReportStep(w, l, e);
    FinishLive(w, l, rid, bash');
    EndLive(w, Live(s', bash', l.inputs), Lost);
  }

  lemma AcceptLive(w: World, l: Live, execute: Execute, mode: Mode)
    requires LiveInv(w, l)
    ensures LiveInv(w, Live(Accept(l.sched, execute, mode).0, l.bash, l.inputs))
  {
    hide Faithful, Replay, Until, Shape, QueueBook, RunningBook, InOrder, Barrier, Refused;
    AcceptInv(l.sched, execute, mode);
    IdleLive(w, l, Accept(l.sched, execute, mode).0);
  }

  lemma WithdrawStarts(book: seq<Ticket>, k: nat)
    requires k < |book| && book[k].fate.Waiting?
    ensures SameStarts(book, Mark(book, k, Withdrawn))
  {
  }

  lemma SameSelf(book: seq<Ticket>)
    ensures SameStarts(book, book)
  {
  }

  lemma CancelledLive(w: World, l: Live, rid: ExecId)
    requires LiveInv(w, l)
    ensures LiveInv(w, Live(Cancelled(l.sched, rid).0, l.bash, l.inputs))
  {
    hide Faithful, Replay, Until, Shape, RunningBook, InOrder, Barrier, SameStarts;
    var s, s' := l.sched, Cancelled(l.sched, rid).0;
    CancelledInv(s, rid);
    SameSelf(s.book);
    if rid !in s.running && Position(s.queued, rid) < |s.queued| {
      WithdrawStarts(s.book, s.queued[Position(s.queued, rid)].ticket);
      NextLater(s, Position(s.queued, rid), Withdrawn);
    }
    IdleLive(w, l, s');
  }

  lemma ParallelFinishLive(w: World, l: Live, rid: ExecId)
    requires LiveInv(w, l) && rid in l.sched.running && l.sched.stateful != Some(rid)
    ensures LiveInv(w, Live(Finish(l.sched, rid, None), l.bash, l.inputs))
  {
    hide Faithful, Replay, Until, Shape, QueueBook, InOrder, Barrier, SameStarts;
    var s := l.sched;
    FinishInv(s, rid, None);
    FinishStarts(s.book, s.running[rid].ticket);
    IdleLive(w, l, Finish(s, rid, None));
  }

  /** A report that does not advance the shell: from a parallel command, or one whose snapshot could not be read. */
  lemma ParallelReportLive(w: World, l: Live, e: Event)
    requires LiveInv(w, l) && Legal(l.sched, e) && l.sched.ended.None?
    requires !ReportsStateful(l.sched, e) && e.JobResult?
    ensures LiveInv(w, LoopStep(w, l, e))
  {
    hide LiveInv, Finish;
    var s, rid := l.sched, e.result.requestId;
    if s.stateful == Some(rid) {
      EndLive(w, l, Step(s, e).0.ended.value);
    } else {
      ParallelFinishLive(w, l, rid);
      EndLive(w, Live(Finish(s, rid, None), l.bash, l.inputs), Lost);
    }
  }

  lemma OtherLive(w: World, l: Live, e: Event)
    requires LiveInv(w, l) && Legal(l.sched, e) && l.sched.ended.None?
    requires !ReportsStateful(l.sched, e) && !e.Admission?
    ensures LiveInv(w, LoopStep(w, l, e))
  {
    hide LiveInv;
    if e.RunFrame? {
      AcceptLive(w, l, e.execute, e.mode);
    } else if e.CancelFrame? {
      CancelledLive(w, l, e.requestId);
    } else if e.JobResult? {
      ParallelReportLive(w, l, e);
    } else {
      EndLive(w, l, Step(l.sched, e).0.ended.value);
    }
  }

  // --------------------------------------------------------------- terminal input

  /** Input goes to the Bash the interpreter has reached, and no command has been given anything that depends on it. */
  lemma TypeLive(w: World, l: Live)
    requires LiveInv(w, l)
    ensures LiveInv(w, Type(w, l))
  {
    hide Replay;
    var s, p, inputs' := l.sched, Here(l.sched), l.inputs + [Here(l.sched)];
    Places(s);
    hide Inv;
    TypedLater(w, s.book, l.inputs, p, p);
    if s.stateful.None? {
      ReplayFlat(w, s.book, l.inputs, p, |s.book|);
      ReplayFlat(w, s.book, inputs', p, |s.book|);
    }
    forall t | 0 <= t < |s.book| ensures GivenWith(s.book[t], Replay(w, s.book, inputs', t).1, w.dropTo) {
      if t <= p {
        TypedLater(w, s.book, l.inputs, p, t);
        assert GivenWith(s.book[t], Replay(w, s.book, l.inputs, t).1, w.dropTo);
      }
    }
  }

  // ------------------------------------------------------------------- all runs

  predicate LegalHere(s: Sched, h: Happening) { h.Loop? ==> Legal(s, h.e) }

  lemma LiveStepInv(w: World, l: Live, h: Happening)
    requires LiveInv(w, l) && LegalHere(l.sched, h)
    ensures LiveInv(w, LiveStep(w, l, h))
  {
    hide LiveInv, Admit;
    match h
    case TerminalInput => TypeLive(w, l);
    case Loop(e) =>
      if ReportsStateful(l.sched, e) {
        ReportLive(w, l, e);
      } else if l.sched.ended.None? {
        if e.Admission? {
          AdmitLive(w, l, e.setup);
        } else {
          OtherLive(w, l, e);
        }
      }
  }

  function LiveRun(w: World, l: Live, happenings: seq<Happening>): Live
    decreases |happenings|
  {
    if happenings == [] then l else LiveRun(w, LiveStep(w, l, happenings[0]), happenings[1..])
  }

  ghost predicate LegalLiveRun(w: World, l: Live, happenings: seq<Happening>)
    decreases |happenings|
  {
    happenings != [] ==>
      LegalHere(l.sched, happenings[0]) && LegalLiveRun(w, LiveStep(w, l, happenings[0]), happenings[1..])
  }

  lemma {:induction false} LiveRunInv(w: World, l: Live, happenings: seq<Happening>)
    requires LiveInv(w, l) && LegalLiveRun(w, l, happenings)
    ensures LiveInv(w, LiveRun(w, l, happenings))
    decreases |happenings|
  {
    hide LiveInv, LiveStep;
    if happenings != [] {
      LiveStepInv(w, l, happenings[0]);
      LiveRunInv(w, LiveStep(w, l, happenings[0]), happenings[1..]);
    }
  }

  /** Whatever the order of submissions, cancels, completions and terminal input,
      and whatever commands and input do to the shell: a started command got the
      directory and variables of the last snapshot a sequential interpreter has
      when it runs, in submission order, the stateful commands before it that
      were started, with the input in its place among them (or, before any of
      them, the session's directory and variables with TERM and HOME), and always
      the session's own identity. And the live Bash, in which the next stateful
      command will run, is the interpreter's. */
  lemma SequentialEquivalence(w: World, shell: Shell, home: Option<string>, happenings: seq<Happening>)
    requires Initial(shell, home, w.initial)
    requires LegalLiveRun(w, Live(Start(shell, home, w.dropTo), w.bash, []), happenings)
    ensures var l := LiveRun(w, Live(Start(shell, home, w.dropTo), w.bash, []), happenings);
            && Faithful(w, l.sched.book, l.inputs)
            && Frontier(l.sched) <= |l.sched.book|
            && (l.bash, l.sched.current) == Replay(w, l.sched.book, l.inputs, Frontier(l.sched))
  {
    StartIs(shell, home, w.dropTo, w.initial);
    LiveRunInv(w, Live(Start(shell, home, w.dropTo), w.bash, []), happenings);
  }
}
