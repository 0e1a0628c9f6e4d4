/** The worker process between sessions: `run` and `serve_session` in
    shiitake-worker/src/client.rs. A unit of work is a command or a session; each
    one leaves the sandbox dirty, and only a successful reset cleans it. */
module Lifecycle {
  import opened Wrappers

  /** How one unit goes: the server is lost while it runs, or it ends, is
      followed by a reset if there is one, and is reported. */
  datatype Work = Work(lost: bool, resetOk: bool, sent: bool)

  /** What `next_execute` returns: work, a clean close or a lapsed lease, or an error. */
  datatype Arrival = Next(work: Work) | NoMore | Failure

  /** A connection attempt: it fails before the acknowledgement, or brings arrivals. */
  datatype Dial = Refused | Accepted(arrivals: seq<Arrival>)

  /** How a connection ends. `Waiting` is a connection still open when its
      arrivals are used up, `Errored` the error return. */
  datatype SessionEnd = Waiting | Errored | Closed | RestartQuotaReached | ResetFailed | LostMidCommand

  /** A unit of work, and whether it found the sandbox dirty. */
  datatype Unit = Unit(work: Work, dirty: bool)

  /** `dirty` and `units` are the sandbox and the process's history. */
  datatype Process = Process(served: nat, dirty: bool, units: seq<Unit>)

  const START := Process(0, false, [])

  predicate Exiting(quota: nat, served: nat) { quota != 0 && served >= quota }

  /** Ends the process rather than the connection. */
  predicate Final(end: SessionEnd) { end.RestartQuotaReached? || end.ResetFailed? || end.LostMidCommand? }

  /** One unit of work, with the connection's end if it ends here. */
  function Serve(quota: nat, p: Process, w: Work): (Process, Option<SessionEnd>) {
    var began := p.(dirty := true, units := p.units + [Unit(w, p.dirty)]);
    if w.lost then (began, Some(LostMidCommand))
    else
      var exiting := Exiting(quota, p.served + 1);
      var failed := !exiting && !w.resetOk;
      var ended := began.(served := p.served + 1, dirty := exiting || failed);
      (ended, if !w.sent then Some(Closed)
              else if exiting then Some(RestartQuotaReached)
              else if failed then Some(ResetFailed)
              else None)
  }

  /** One connection. */
  function Session(quota: nat, p: Process, arrivals: seq<Arrival>): (Process, SessionEnd)
    decreases |arrivals|
  {
    if arrivals == [] then (p, Waiting)
    else
      match arrivals[0]
      case NoMore => (p, Closed)
      case Failure => (p, Errored)
      case Next(w) =>
        var (p', end) := Serve(quota, p, w);
        if end.Some? then (p', end.value) else Session(quota, p', arrivals[1..])
  }

  /** The process: connect again until an end that is final. */
  function Run(quota: nat, p: Process, dials: seq<Dial>): (Process, Option<SessionEnd>)
    decreases |dials|
  {
    if dials == [] then (p, None)
    else if dials[0].Refused? then Run(quota, p, dials[1..])
    else
      var (p', end) := Session(quota, p, dials[0].arrivals);
      if Final(end) then (p', Some(end)) else Run(quota, p', dials[1..])
  }

  // ---------------------------------------------------------------- guarantees

  /** After unit `k` the sandbox was not reset: the reset was skipped or failed. */
  predicate Unreset(quota: nat, k: nat, w: Work) { Exiting(quota, k + 1) || !w.resetOk }

  /** Everything about a history that the theorems below read off. */
  ghost predicate Orderly(quota: nat, units: seq<Unit>) {
    && (units != [] ==> !units[0].dirty)
    && (forall k, next :: 0 <= k && next == k + 1 && next < |units| ==>
          (units[next].dirty <==> !units[k].work.sent && Unreset(quota, k, units[k].work)))
    && (forall k :: 0 <= k < |units| - 1 ==> !units[k].work.lost)
    && (forall k :: 0 <= k < |units| - 1 && units[k].work.sent ==> !Unreset(quota, k, units[k].work))
  }

  /** The process is between units and may take another. */
  ghost predicate Alive(quota: nat, p: Process) {
    && Orderly(quota, p.units) && p.served == |p.units|
    && (p.units == [] ==> !p.dirty)
    && (p.units != [] ==>
          var k, w := |p.units| - 1, p.units[|p.units| - 1].work;
          && !w.lost && (w.sent ==> !Unreset(quota, k, w)) && (p.dirty <==> !w.sent && Unreset(quota, k, w)))
  }

  /** Why the process ended. */
  ghost predicate EndedFor(quota: nat, units: seq<Unit>, end: SessionEnd) {
    && units != []
    && var k, w := |units| - 1, units[|units| - 1].work;
       && (end.LostMidCommand? <==> w.lost)
       && (end.RestartQuotaReached? <==> !w.lost && w.sent && Exiting(quota, k + 1))
       && (end.ResetFailed? <==> !w.lost && w.sent && !Exiting(quota, k + 1) && !w.resetOk)
  }

  lemma ServeOrderly(quota: nat, p: Process, w: Work)
    requires Alive(quota, p)
    ensures var (p', end) := Serve(quota, p, w);
            && Orderly(quota, p'.units)
            && (end.None? || end.value.Closed? ==> Alive(quota, p'))
            && (end.Some? && !end.value.Closed? ==> Final(end.value) && EndedFor(quota, p'.units, end.value))
  {
    var units' := p.units + [Unit(w, p.dirty)];
    assert forall k :: 0 <= k < |p.units| ==> units'[k] == p.units[k];
    assert units'[|p.units|] == Unit(w, p.dirty);
    assert Serve(quota, p, w).0.units == units';
    assert Orderly(quota, units');
  }

  lemma {:induction false} SessionOrderly(quota: nat, p: Process, arrivals: seq<Arrival>)
    requires Alive(quota, p)
    ensures var (p', end) := Session(quota, p, arrivals);
            if Final(end) then Orderly(quota, p'.units) && EndedFor(quota, p'.units, end) else Alive(quota, p')
    decreases |arrivals|
  {
    hide Alive, Orderly, EndedFor;
    if arrivals != [] && arrivals[0].Next? {
      ServeOrderly(quota, p, arrivals[0].work);
      var (p', end) := Serve(quota, p, arrivals[0].work);
      if end.None? {
        SessionOrderly(quota, p', arrivals[1..]);
      }
    }
  }

  lemma {:induction false} RunOrderly(quota: nat, p: Process, dials: seq<Dial>)
    requires Alive(quota, p)
    ensures var (p', end) := Run(quota, p, dials);
            if end.Some? then Orderly(quota, p'.units) && EndedFor(quota, p'.units, end.value) else Alive(quota, p')
    decreases |dials|
  {
    hide Alive, Orderly, EndedFor, Serve, Session;
    if dials != [] {
      if dials[0].Accepted? {
        SessionOrderly(quota, p, dials[0].arrivals);
        var (p', end) := Session(quota, p, dials[0].arrivals);
        if !Final(end) {
          RunOrderly(quota, p', dials[1..]);
        }
      } else {
        RunOrderly(quota, p, dials[1..]);
      }
    }
  }

  /** Over every run of the process, whatever the connections bring, a unit of
      work finds the sandbox dirty exactly when the unit before it could not be
      reported and its reset had failed or, the quota being reached, was skipped. */
  lemma CleanSandbox(quota: nat, dials: seq<Dial>, k: nat)
    requires k < |Run(quota, START, dials).0.units|
    ensures var units := Run(quota, START, dials).0.units;
            units[k].dirty <==> k > 0 && !units[k - 1].work.sent && (Exiting(quota, k) || !units[k - 1].work.resetOk)
  {
    RunOrderly(quota, START, dials);
    var units := Run(quota, START, dials).0.units;
    assert Orderly(quota, units);
    if k > 0 {
      assert units[k].dirty <==> !units[k - 1].work.sent && Unreset(quota, k - 1, units[k - 1].work);
    }
  }

  /** Losing the server while a unit runs ends the process: no unit follows it. */
  lemma LossIsFinal(quota: nat, dials: seq<Dial>)
    ensures var (p, end) := Run(quota, START, dials);
            && (forall k :: 0 <= k < |p.units| && p.units[k].work.lost ==>
                  k == |p.units| - 1 && end == Some(LostMidCommand))
            && (end == Some(LostMidCommand) ==> p.units != [] && p.units[|p.units| - 1].work.lost)
  {
    RunOrderly(quota, START, dials);
  }

  /** A reset that fails ends the process too, once the unit has been reported, whatever the quota. */
  lemma FailedResetIsFinal(quota: nat, dials: seq<Dial>, k: nat)
    requires k < |Run(quota, START, dials).0.units|
    ensures var (p, end) := Run(quota, START, dials);
            var w := p.units[k].work;
            !w.lost && w.sent && !w.resetOk && !Exiting(quota, k + 1) ==> k == |p.units| - 1 && end == Some(ResetFailed)
  {
    RunOrderly(quota, START, dials);
    var (p, end) := Run(quota, START, dials);
    assert k < |p.units| - 1 && p.units[k].work.sent ==> !Unreset(quota, k, p.units[k].work);
  }

  /** The unit ends the process, and how. */
  predicate Ends(quota: nat, k: nat, w: Work, end: SessionEnd) {
    || (end.LostMidCommand? && w.lost)
    || (end.RestartQuotaReached? && !w.lost && w.sent && Exiting(quota, k + 1))
    || (end.ResetFailed? && !w.lost && w.sent && !Exiting(quota, k + 1) && !w.resetOk)
  }

  /** The process ends if and only if some unit lost the server, or was reported
      with the quota reached or after a failed reset; and it ends as that unit says. */
  lemma ProcessEnds(quota: nat, dials: seq<Dial>, end: SessionEnd)
    ensures var (p, e) := Run(quota, START, dials);
            e == Some(end) <==> exists k :: 0 <= k < |p.units| && Ends(quota, k, p.units[k].work, end)
  {
    RunOrderly(quota, START, dials);
    var (p, e) := Run(quota, START, dials);
    if e.Some? {
      var last := |p.units| - 1;
      assert EndedFor(quota, p.units, e.value) && Final(e.value) by { RunFinal(quota, START, dials); }
      assert Ends(quota, last, p.units[last].work, e.value);
      forall k | 0 <= k < |p.units| && Ends(quota, k, p.units[k].work, end) ensures k == last {
        assert k < last && p.units[k].work.sent ==> !Unreset(quota, k, p.units[k].work);
      }
    } else {
      forall k | 0 <= k < |p.units| ensures !Ends(quota, k, p.units[k].work, end) {
        assert k < |p.units| - 1 && p.units[k].work.sent ==> !Unreset(quota, k, p.units[k].work);
      }
    }
  }

  lemma {:induction false} RunFinal(quota: nat, p: Process, dials: seq<Dial>)
    ensures Run(quota, p, dials).1.Some? ==> Final(Run(quota, p, dials).1.value)
    decreases |dials|
  {
    if dials != [] && dials[0].Refused? {
      RunFinal(quota, p, dials[1..]);
    } else if dials != [] && !Final(Session(quota, p, dials[0].arrivals).1) {
      RunFinal(quota, Session(quota, p, dials[0].arrivals).0, dials[1..]);
    }
  }

  /** Without a quota the process ends if and only if a unit lost the server or was
      reported after a failed reset. */
  lemma NoQuotaEnds(dials: seq<Dial>)
    ensures var (p, e) := Run(0, START, dials);
            e.Some? <==> exists k :: 0 <= k < |p.units|
                                     && (p.units[k].work.lost || (p.units[k].work.sent && !p.units[k].work.resetOk))
  {
    var (p, e) := Run(0, START, dials);
    ProcessEnds(0, dials, LostMidCommand);
    ProcessEnds(0, dials, ResetFailed);
    RunFinal(0, START, dials);
    if e.Some? {
      ProcessEnds(0, dials, e.value);
      var k :| 0 <= k < |p.units| && Ends(0, k, p.units[k].work, e.value);
      assert p.units[k].work.lost || (p.units[k].work.sent && !p.units[k].work.resetOk);
    } else {
      forall k | 0 <= k < |p.units|
        ensures !p.units[k].work.lost && !(p.units[k].work.sent && !p.units[k].work.resetOk)
      {
        assert !Ends(0, k, p.units[k].work, LostMidCommand) && !Ends(0, k, p.units[k].work, ResetFailed);
      }
    }
  }

  /** It does end without a quota: once by losing the server, once by a failed reset. */
  lemma NoQuotaWitness()
    ensures Run(0, START, [Accepted([Next(Work(true, true, true))])]).1 == Some(LostMidCommand)
    ensures Run(0, START, [Accepted([Next(Work(false, false, true))])]).1 == Some(ResetFailed)
  {
    var lost, failed := Work(true, true, true), Work(false, false, true);
    assert Serve(0, START, lost).1 == Some(LostMidCommand) && Serve(0, START, failed).1 == Some(ResetFailed);
    assert Session(0, START, [Next(lost)]).1 == LostMidCommand && Session(0, START, [Next(failed)]).1 == ResetFailed;
  }

  /** With a quota, once it is reached a further unit is taken only after a
      report that could not be sent; so if all reports are sent the process ends
      after at most `quota` units, and by the quota exactly at that many. Without
      one it never ends by the quota. */
  lemma QuotaEnds(quota: nat, dials: seq<Dial>)
    ensures var (p, end) := Run(quota, START, dials);
            && (forall k :: 0 <= k < |p.units| - 1 && quota != 0 && k + 1 >= quota ==> !p.units[k].work.sent)
            && (quota != 0 && (forall k :: 0 <= k < |p.units| ==> p.units[k].work.sent) ==>
                  |p.units| <= quota
                  && (|p.units| == quota && !p.units[quota - 1].work.lost <==> end == Some(RestartQuotaReached)))
            && (quota == 0 ==> end != Some(RestartQuotaReached))
  {
    RunOrderly(quota, START, dials);
    var (p, end) := Run(quota, START, dials);
    if quota != 0 && |p.units| > quota {
      assert Unreset(quota, quota - 1, p.units[quota - 1].work);
    }
  }

  /** The exception is real: a reset that fails and a report that cannot be sent
      leave the next unit a dirty sandbox. */
  lemma DirtyStart(w: Work)
    ensures var dials := [Accepted([Next(Work(false, false, false))]), Accepted([Next(w)])];
            Run(0, START, dials).0.units == [Unit(Work(false, false, false), false), Unit(w, true)]
  {
    var u := Work(false, false, false);
    var a1, a2 := [Next(u)], [Next(w)];
    var p1 := Process(1, true, [Unit(u, false)]);
    assert Serve(0, START, u).1 == Some(Closed) && Serve(0, START, u).0.units == [Unit(u, false)];
    assert Serve(0, START, u).0 == p1;
    assert Serve(0, p1, w).0.units == [Unit(u, false), Unit(w, true)];
    assert Session(0, START, a1) == (p1, Closed);
    assert a2[1..] == [];
    assert Session(0, p1, a2).0.units == [Unit(u, false), Unit(w, true)];
    var dials := [Accepted(a1), Accepted(a2)];
    assert dials[1..] == [Accepted(a2)];
    assert Run(0, p1, [Accepted(a2)]).0 == Session(0, p1, a2).0;
  }

  // ------------------------------------------------------------- what is served

  function Works(units: seq<Unit>): (r: seq<Work>)
    ensures |r| == |units| && forall k :: 0 <= k < |units| ==> r[k] == units[k].work
  {
    seq(|units|, k requires 0 <= k < |units| => units[k].work)
  }

  /** The work a connection brings before it ends: up to its first arrival that
      is none, or the first unit that cannot be reported, that unit included. */
  function Brought(arrivals: seq<Arrival>): seq<Work>
    decreases |arrivals|
  {
    if arrivals == [] || !arrivals[0].Next? then []
    else [arrivals[0].work] + (if arrivals[0].work.sent then Brought(arrivals[1..]) else [])
  }

  /** The same over all dials; a refused one brings nothing. */
  function Offered(dials: seq<Dial>): seq<Work>
    decreases |dials|
  {
    if dials == [] then []
    else (if dials[0].Accepted? then Brought(dials[0].arrivals) else []) + Offered(dials[1..])
  }

  lemma {:induction false} SessionServes(quota: nat, p: Process, arrivals: seq<Arrival>)
    ensures var (p', end) := Session(quota, p, arrivals);
            && Works(p'.units) <= Works(p.units) + Brought(arrivals)
            && (!Final(end) ==> Works(p'.units) == Works(p.units) + Brought(arrivals))
    decreases |arrivals|
  {
    if arrivals != [] && arrivals[0].Next? {
      var w := arrivals[0].work;
      var (p', end) := Serve(quota, p, w);
      assert Works(p'.units) == Works(p.units) + [w];
      if end.None? {
        SessionServes(quota, p', arrivals[1..]);
        assert Works(p'.units) + Brought(arrivals[1..]) == Works(p.units) + Brought(arrivals);
      }
    }
  }

  lemma {:induction false} RunServes(quota: nat, p: Process, dials: seq<Dial>)
    ensures var (p', end) := Run(quota, p, dials);
            && Works(p'.units) <= Works(p.units) + Offered(dials)
            && (end.None? ==> Works(p'.units) == Works(p.units) + Offered(dials))
    decreases |dials|
  {
    hide Session;
    if dials != [] {
      var p' := p;
      if dials[0].Accepted? {
        SessionServes(quota, p, dials[0].arrivals);
        p' := Session(quota, p, dials[0].arrivals).0;
      }
      if dials[0].Refused? || !Final(Session(quota, p, dials[0].arrivals).1) {
        RunServes(quota, p', dials[1..]);
        assert Works(p'.units) + Offered(dials[1..]) == Works(p.units) + Offered(dials);
      }
    }
  }

  /** The process takes, in order, the work its connections bring, and leaves
      some of it only if it ends: after a refused dial, and after a connection
      that closed or failed, it dials again. */
  lemma AllServed(quota: nat, dials: seq<Dial>)
    ensures var (p, end) := Run(quota, START, dials);
            && Works(p.units) <= Offered(dials)
            && (end.None? ==> Works(p.units) == Offered(dials))
  {
    RunServes(quota, START, dials);
    assert Works([]) + Offered(dials) == Offered(dials);
  }

  // ---------------------------------------------------------------- the process

  class Worker {
    const restartAfter: nat
    var served: nat
    ghost var dirty: bool
    ghost var units: seq<Unit>

    ghost function View(): Process
      reads this
    {
      Process(served, dirty, units)
    }

    constructor (restartAfter: nat)
      ensures View() == START && this.restartAfter == restartAfter
    {
      this.restartAfter, served, dirty, units := restartAfter, 0, false, [];
    }

    /** Serve units on one connection until it ends. */
    method ServeSession(arrivals: seq<Arrival>) returns (end: SessionEnd)
      modifies this
      ensures (View(), end) == Session(restartAfter, old(View()), arrivals)
    {
      var next := 0;
      while next < |arrivals|
        invariant next <= |arrivals|
        invariant Session(restartAfter, old(View()), arrivals) == Session(restartAfter, View(), arrivals[next..])
      {
        var arrival := arrivals[next];
        assert arrivals[next..][1..] == arrivals[next + 1..];
        next := next + 1;
        match arrival {
          case NoMore => return Closed;
          case Failure => return Errored;
          case Next(work) =>
            units := units + [Unit(work, dirty)];
            dirty := true;
            if work.lost {
              return LostMidCommand;
            }
            served := served + 1;
            var exiting := restartAfter != 0 && served >= restartAfter;
            var resetFailed := false;
            if !exiting {
              if work.resetOk {
                dirty := false;
              } else {
                resetFailed := true;
              }
            }
            if !work.sent {
              return Closed;
            }
            if exiting {
              return RestartQuotaReached;
            }
            if resetFailed {
              return ResetFailed;
            }
        }
      }
      end := Waiting;
    }

    /** Connect again and again until the process has to end. */
    method ServeForever(dials: seq<Dial>) returns (end: Option<SessionEnd>)
      modifies this
      ensures (View(), end) == Run(restartAfter, old(View()), dials)
    {
      var next := 0;
      while next < |dials|
        invariant next <= |dials|
        invariant Run(restartAfter, old(View()), dials) == Run(restartAfter, View(), dials[next..])
      {
        var dial := dials[next];
        assert dials[next..][1..] == dials[next + 1..];
        next := next + 1;
        if dial.Accepted? {
          var ended := ServeSession(dial.arrivals);
          match ended {
            case RestartQuotaReached => return Some(ended);
            case ResetFailed => return Some(ended);
            case LostMidCommand => return Some(ended);
            case Closed =>
            case Errored =>
            case Waiting =>
          }
        }
      }
      end := None;
    }
  }
}
