/** The worker's side of opening and closing: over any run of the worker, each
    session it opens is acknowledged once and reported over at most once, in
    order, whatever frames it is sent. */
module Reports {
  import opened Wrappers
  import opened Protocol
  import S = Scheduler
  import opened Link

  datatype Act =
    | Feed(f: Frame)
    | Read(spawnError: Option<string>, home: Option<string>)
    | Do(e: S.Event)
    | Finish(resetFailed: bool, exiting: bool, ok: bool)
    | Die

  /** A worker with everything it has written in `conn.up`, and the sessions it has opened. */
  datatype Run = Run(conn: Conn, begun: seq<SessionId>)

  const BORN := Run(Conn(0, [], [], Awaiting), [])

  function Act1(r: Run, a: Act): Run {
    var c := r.conn;
    match a
    case Feed(f) => r.(conn := c.(down := c.down + [f]))
    case Read(spawnError, home) =>
      if c.down == [] then r
      else Run(Receive(c, spawnError, home),
               if c.worker.Awaiting? && c.down[0].SessionOpen? then r.begun + [c.down[0].sessionId] else r.begun)
    case Do(e) =>
      if c.worker.Serving? && Internal(e) && S.Legal(c.worker.sched, e)
      then r.(conn := Worked(c, c.worker.id, c.worker.sched, e)) else r
    case Finish(resetFailed, exiting, ok) => r.(conn := Report(c, resetFailed, exiting, ok))
    case Die => r.(conn := Crash(c))
  }

  function Acts(r: Run, acts: seq<Act>): Run
    decreases |acts|
  {
    if acts == [] then r else Acts(Act1(r, acts[0]), acts[1..])
  }

  /** The sessions acknowledged, and those reported over, in order. */
  function Acknowledged(up: seq<Frame>): seq<SessionId> {
    if up == [] then []
    else (if up[0].SessionReady? then [up[0].sessionId] else []) + Acknowledged(up[1..])
  }

  function Reported(up: seq<Frame>): seq<SessionId> {
    if up == [] then []
    else (if up[0].SessionClosed? then [up[0].sessionId] else []) + Reported(up[1..])
  }

  lemma {:induction false} AcknowledgedConcat(a: seq<Frame>, b: seq<Frame>)
    ensures Acknowledged(a + b) == Acknowledged(a) + Acknowledged(b)
  {
    if a == [] {
      assert a + b == b;
    } else {
      assert (a + b)[0] == a[0] && (a + b)[1..] == a[1..] + b;
      AcknowledgedConcat(a[1..], b);
      var first := if a[0].SessionReady? then [a[0].sessionId] else [];
      assert first + (Acknowledged(a[1..]) + Acknowledged(b)) == first + Acknowledged(a[1..]) + Acknowledged(b);
    }
  }

  lemma {:induction false} ReportedConcat(a: seq<Frame>, b: seq<Frame>)
    ensures Reported(a + b) == Reported(a) + Reported(b)
  {
    if a == [] {
      assert a + b == b;
    } else {
      assert (a + b)[0] == a[0] && (a + b)[1..] == a[1..] + b;
      ReportedConcat(a[1..], b);
      var first := if a[0].SessionClosed? then [a[0].sessionId] else [];
      assert first + (Reported(a[1..]) + Reported(b)) == first + Reported(a[1..]) + Reported(b);
    }
  }

  lemma UpConcat(a: seq<Frame>, b: seq<Frame>)
    ensures Acknowledged(a + b) == Acknowledged(a) + Acknowledged(b)
    ensures Reported(a + b) == Reported(a) + Reported(b)
  {
    AcknowledgedConcat(a, b);
    ReportedConcat(a, b);
  }

  lemma {:induction false} AnswersOnly(out: seq<Frame>)
    requires forall i :: 0 <= i < |out| ==> out[i].ResultOf?
    ensures Acknowledged(out) == [] && Reported(out) == []
  {
    if out != [] {
      assert forall i :: 0 <= i < |out[1..]| ==> out[1..][i] == out[i + 1];
      AnswersOnly(out[1..]);
    }
  }

  lemma OneFrame(f: Frame)
    ensures Acknowledged([f]) == (if f.SessionReady? then [f.sessionId] else [])
    ensures Reported([f]) == (if f.SessionClosed? then [f.sessionId] else [])
  {
    assert [f][1..] == [];
  }

  /** Every opened session is acknowledged; every one is reported, but the last
      while it is under way or if the worker is gone without a word. */
  predicate InStep(r: Run) {
    && Acknowledged(r.conn.up) == r.begun
    && match r.conn.worker
       case Awaiting => Reported(r.conn.up) == r.begun
       case Serving(id, _) => Reported(r.conn.up) + [id] == r.begun
       case Leaving(id, _, _) => Reported(r.conn.up) + [id] == r.begun
       case Gone(_) =>
         (Reported(r.conn.up) == r.begun || (r.begun != [] && Reported(r.conn.up) == r.begun[..|r.begun| - 1]))
  }

  lemma AllButLast(ids: seq<SessionId>, id: SessionId)
    ensures (ids + [id])[..|ids|] == ids && |ids + [id]| == |ids| + 1
  {
  }

  lemma WorkedInStep(r: Run, sched: S.Sched, e: S.Event, down: seq<Frame>)
    requires InStep(r) && r.conn.worker.Serving? && sched == r.conn.worker.sched
    ensures InStep(r.(conn := Worked(r.conn.(down := down), r.conn.worker.id, sched, e)))
  {
    hide S.Step, Acknowledged, Reported;
    var up, out := r.conn.up, S.Step(sched, e).1;
    StepAnswers(sched, e);
    AnswersOnly(out);
    UpConcat(up, out);
    assert Acknowledged(up) + [] == Acknowledged(up) && Reported(up) + [] == Reported(up);
    AllButLast(Reported(up), r.conn.worker.id);
  }

  lemma ReadInStep(r: Run, spawnError: Option<string>, home: Option<string>)
    requires InStep(r) && r.conn.down != []
    ensures InStep(Act1(r, Read(spawnError, home)))
  {
    hide S.Step, S.Start, Acknowledged, Reported;
    var c := r.conn;
    if c.worker.Serving? {
      hide Worked;
      if EventOf(c.down[0], c.worker.id).Some? {
        WorkedInStep(r, c.worker.sched, EventOf(c.down[0], c.worker.id).value, c.down[1..]);
      }
    } else if c.worker.Awaiting? && c.down[0].SessionOpen? {
      var f := SessionReady(c.down[0].sessionId, spawnError);
      UpConcat(c.up, [f]);
      OneFrame(f);
      assert Reported(c.up) + [] == Reported(c.up);
    }
  }

  lemma DoInStep(r: Run, e: S.Event)
    requires InStep(r)
    ensures InStep(Act1(r, Do(e)))
  {
    hide Worked, S.Legal, Acknowledged, Reported;
    var c := r.conn;
    if c.worker.Serving? {
      WorkedInStep(r, c.worker.sched, e, c.down);
      assert c.(down := c.down) == c;
    }
  }

  lemma FinishInStep(r: Run, resetFailed: bool, exiting: bool, ok: bool)
    requires InStep(r)
    ensures InStep(Act1(r, Finish(resetFailed, exiting, ok)))
  {
    hide Acknowledged, Reported;
    var c := r.conn;
    if c.worker.Leaving? {
      var f := Report(c, resetFailed, exiting, true).up[|c.up|];
      UpConcat(c.up, [f]);
      OneFrame(f);
      AllButLast(Reported(c.up), c.worker.id);
      assert Acknowledged(c.up) + [] == Acknowledged(c.up);
    }
  }

  lemma DieInStep(r: Run)
    requires InStep(r)
    ensures InStep(Act1(r, Die))
  {
    hide Acknowledged, Reported;
    var c := r.conn;
    if c.worker.Serving? || c.worker.Leaving? {
      AllButLast(Reported(c.up), c.worker.id);
    }
  }

  lemma ActInStep(r: Run, a: Act)
    requires InStep(r)
    ensures InStep(Act1(r, a))
  {
    match a
    case Feed(_) =>
    case Read(spawnError, home) =>
      if r.conn.down != [] {
        hide InStep, Act1;
        ReadInStep(r, spawnError, home);
      } else {
        assert Act1(r, a) == r;
      }
    case Do(e) => DoInStep(r, e);
    case Finish(resetFailed, exiting, ok) => FinishInStep(r, resetFailed, exiting, ok);
    case Die => DieInStep(r);
  }

  lemma {:induction false} ActsInStep(r: Run, acts: seq<Act>)
    requires InStep(r)
    ensures InStep(Acts(r, acts))
    decreases |acts|
  {
    hide InStep, Act1;
    if acts != [] {
      ActInStep(r, acts[0]);
      ActsInStep(Act1(r, acts[0]), acts[1..]);
    }
  }

  /** Over any run of a worker, the sessions it reports over are the sessions it
      opened, in order and each once; only the last may be missing, while it is
      under way or because the worker went without reporting it. Each was
      acknowledged exactly once. */
  lemma OneReportPerOpen(acts: seq<Act>)
    ensures var r := Acts(BORN, acts);
            && Acknowledged(r.conn.up) == r.begun
            && Reported(r.conn.up) <= r.begun && |r.begun| <= |Reported(r.conn.up)| + 1
            && (r.conn.worker.Awaiting? ==> Reported(r.conn.up) == r.begun)
            && (r.conn.worker.Serving? || r.conn.worker.Leaving? ==>
                  Reported(r.conn.up) + [r.conn.worker.id] == r.begun)
  {
    hide Act1;
    ActsInStep(BORN, acts);
  }
}
