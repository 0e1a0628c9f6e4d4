/** What the invariant gives a client of the service: statements about every run
    of the whole system, whatever the interleaving. */
module Guarantees {
  import opened Wrappers
  import opened Protocol
  import S = Scheduler
  import P = ServerPool
  import opened Link
  import opened System
  import opened Composition

  // ------------------------------------------------------------- conservation

  /** A registered command its submitter has not written yet. */
  function Unwritten(s: Sys, id: SessionId): multiset<ExecId> {
    if id in s.holders && s.holders[id].Registered? then multiset{s.holders[id].execute.requestId} else multiset{}
  }

  /** While a worker is in its session loop, the server's commands in flight for
      the session are exactly, each once, the one about to be written, those on
      the wire, those waiting or running at the worker, and those whose answer is
      on its way back. */
  lemma Conservation(labels: seq<Label>, w: WorkerId)
    ensures var s := Exec(INIT, labels);
            w in s.conns && s.conns[w].worker.Serving? ==>
              var c := s.conns[w];
              var id := c.worker.id;
              && w in s.pool.workerSessions && s.pool.workerSessions[w] == id
              && multiset(P.InflightOf(s.pool.inflight, id).Keys)
                 == Unwritten(s, id) + Carried(c.down, id) + S.Held(c.worker.sched) + Answered(c.up)
  {
    hide S.Inv, P.InflightOf;
    Reachable(labels);
    var s := Exec(INIT, labels);
    if w in s.conns && s.conns[w].worker.Serving? {
      ServingFacts(s, w);
    }
  }

  lemma ServingFacts(s: Sys, w: WorkerId)
    requires SysInv(s) && w in s.conns && s.conns[w].worker.Serving?
    ensures var c := s.conns[w];
            var id := c.worker.id;
            && w in s.pool.workerSessions && s.pool.workerSessions[w] == id
            && id in s.pool.sessions && s.pool.sessions[id].workerId == w && s.pool.sessions[id].sink == c.sink
            && P.Holding(s.pool.sessions[id].state)
            && ServingOk(SliceOf(s, w, c.sink), id, c)
            && PendingIds(SliceOf(s, w, c.sink)) == Unwritten(s, id)
  {
    hide S.Inv, P.IdleInv, P.RecordsInv, P.CountInv, P.InflightInv, P.InflightOf, UsedInv, InflightHome;
    var c := s.conns[w];
    var sl := SliceOf(s, w, c.sink);
    assert ConnInv(sl, c);
    assert sl.owner.Some? && ServingOk(sl, sl.owner.value, c);
  }

  /** The two halves of conservation a client sees: a command is never in two
      places, and a command in flight is never nowhere. */
  lemma NeverTwiceNeverLost(labels: seq<Label>, w: WorkerId, rid: ExecId)
    ensures var s := Exec(INIT, labels);
            w in s.conns && s.conns[w].worker.Serving? ==>
              var c := s.conns[w];
              var id := c.worker.id;
              var places := Unwritten(s, id) + Carried(c.down, id) + S.Held(c.worker.sched) + Answered(c.up);
              places[rid] == if rid in s.pool.inflight && s.pool.inflight[rid].sessionId == c.worker.id then 1 else 0
  {
    hide SysInv, S.Held, Carried, Answered;
    Conservation(labels, w);
  }

  /** The worker belongs to a session the server knows, has left its loop, and has not reset since. */
  predicate HasLeft(s: Sys, w: WorkerId) {
    && w in s.conns && w in s.pool.workerSessions && s.pool.workerSessions[w] in s.pool.sessions
    && LeftBy(s.conns[w].worker).Some?
  }

  lemma LeftFacts(s: Sys, w: WorkerId)
    requires SysInv(s) && HasLeft(s, w)
    ensures var c, id := s.conns[w], s.pool.workerSessions[w];
            var sl := SliceOf(s, w, c.sink);
            && LeftOk(c.worker, sl.inflight) && Whereabouts(sl, id, c) <= multiset(sl.inflight.Keys)
            && PendingIds(sl) == Unwritten(s, id) && sl.inflight == P.InflightOf(s.pool.inflight, id)
  {
    hide S.Inv, P.IdleInv, P.RecordsInv, P.CountInv, P.InflightInv, P.InflightOf, UsedInv, InflightHome, LeftModes,
         S.Owed, S.Held;
    var c := s.conns[w];
    assert ConnInv(SliceOf(s, w, c.sink), c);
  }

  /** Once a worker has left its loop, what it still holds unanswered, what is on
      the wire and what it has answered are still, each at most once, commands in
      flight: the rest the server settles when the report or the drop comes. */
  lemma LeftAccounted(labels: seq<Label>, w: WorkerId)
    ensures var s := Exec(INIT, labels);
            HasLeft(s, w) ==>
              var c, id := s.conns[w], s.pool.workerSessions[w];
              Unwritten(s, id) + Carried(c.down, id) + S.Owed(LeftBy(c.worker).value) + Answered(c.up)
              <= multiset(P.InflightOf(s.pool.inflight, id).Keys)
  {
    hide SysInv, LeftOk, P.InflightOf, S.Owed, Carried, Answered, Unwritten;
    Reachable(labels);
    var s := Exec(INIT, labels);
    if HasLeft(s, w) {
      LeftFacts(s, w);
    }
  }

  /** So of the commands no longer in flight, a worker that has left its loop
      still holds exactly the one it gave up. */
  lemma LeftHolds(labels: seq<Label>, w: WorkerId, rid: ExecId)
    ensures var s := Exec(INIT, labels);
            HasLeft(s, w) && rid !in s.pool.inflight ==>
              var c, l := s.conns[w], LeftBy(s.conns[w].worker).value;
              && rid !in Carried(c.down, s.pool.workerSessions[w]) && rid !in Answered(c.up)
              && (rid in S.Held(l) <==> S.GivenUp(l) == Some(rid))
  {
    hide SysInv, Carried, Answered, Unwritten, S.Held, S.Owed, S.Inv;
    Reachable(labels);
    var s := Exec(INIT, labels);
    if HasLeft(s, w) && rid !in s.pool.inflight {
      LeftAccounted(labels, w);
      LeftFacts(s, w);
      var id, l := s.pool.workerSessions[w], LeftBy(s.conns[w].worker).value;
      NotInFlight(Unwritten(s, id), Carried(s.conns[w].down, id), S.Owed(l), Answered(s.conns[w].up),
                  P.InflightOf(s.pool.inflight, id).Keys, rid);
      OwedRest(l, rid);
    }
  }

  lemma NotInFlight(a: multiset<ExecId>, b: multiset<ExecId>, c: multiset<ExecId>, d: multiset<ExecId>,
                    keys: set<ExecId>, rid: ExecId)
    requires a + b + c + d <= multiset(keys) && rid !in keys
    ensures rid !in b && rid !in c && rid !in d
  {
    assert (a + b + c + d)[rid] <= multiset(keys)[rid];
  }

  lemma OwedRest(l: S.Sched, rid: ExecId)
    requires S.Inv(l) && S.GivesUpOwn(l) && rid !in S.Owed(l)
    ensures rid in S.Held(l) <==> S.GivenUp(l) == Some(rid)
  {
  }

  // --------------------------------------------------------- mutual exclusion

  /** No stateful command of the session is in flight, about to be written, on
      the wire, or waiting or running at its worker, unless the worker gave the
      running one up and left its loop. */
  ghost predicate NoStateful(s: Sys, id: SessionId) {
    && (forall rid :: rid in s.pool.inflight && s.pool.inflight[rid].sessionId == id ==>
          s.pool.inflight[rid].mode.Parallel?)
    && (id in s.holders && s.holders[id].Registered? && Reaches(s, s.holders[id], id) ==> s.holders[id].mode.Parallel?)
    && (forall w :: w in s.conns && w in s.pool.workerSessions && s.pool.workerSessions[w] == id ==>
          NoStatefulAt(s.conns[w], id))
  }

  ghost predicate NoStatefulAt(c: Conn, id: SessionId) {
    && (forall i :: 0 <= i < |c.down| && c.down[i].SessionRun? && c.down[i].sessionId == id ==>
          c.down[i].mode.Parallel?)
    && (c.worker.Serving? ==> !HoldsStateful(c.worker.sched))
    && (LeftBy(c.worker).Some? ==> HoldsOnly(LeftBy(c.worker).value, S.GivenUp(LeftBy(c.worker).value)))
  }

  /** The write would reach the session's worker. */
  predicate Reaches(s: Sys, h: Holder, id: SessionId) {
    Connected(s, h.worker, h.sink) && h.worker in s.pool.workerSessions && s.pool.workerSessions[h.worker] == id
  }

  /** A stateful command is waiting or running. */
  ghost predicate HoldsStateful(sched: S.Sched) {
    || (exists i :: 0 <= i < |sched.queued| && sched.queued[i].mode.Stateful?)
    || (exists t :: 0 <= t < |sched.book| && S.IsRunning(sched.book[t]) && sched.book[t].mode.Stateful?)
  }

  /** A stateful command is held if and only if this one is named, and then it is this one, running. */
  ghost predicate HoldsOnly(sched: S.Sched, rid: Option<ExecId>) {
    && (HoldsStateful(sched) <==> rid.Some?)
    && (forall i :: 0 <= i < |sched.queued| ==> sched.queued[i].mode.Parallel?)
    && (forall t :: 0 <= t < |sched.book| && S.IsRunning(sched.book[t]) && sched.book[t].mode.Stateful? ==>
          Some(sched.book[t].execute.requestId) == rid)
  }

  lemma ExcludedFlight(p: P.Pool, id: SessionId)
    requires P.PoolInv(p) && id in p.sessions && p.sessions[id].terminal.Some?
    ensures P.Holding(p.sessions[id].state)
    ensures forall rid :: rid in p.inflight && p.inflight[rid].sessionId == id ==> p.inflight[rid].mode.Parallel?
  {
    assert P.StatefulOf(p.inflight, id) == {};
    forall rid | rid in p.inflight && p.inflight[rid].sessionId == id ensures p.inflight[rid].mode.Parallel? {
      assert rid !in P.StatefulOf(p.inflight, id);
    }
  }

  /** A loop that agrees with a server without stateful commands in flight holds none. */
  lemma ExcludedLoop(sched: S.Sched, modes: map<ExecId, Mode>)
    requires S.Inv(sched) && S.ModesIn(sched, modes)
    requires forall rid :: rid in modes ==> modes[rid].Parallel?
    ensures !HoldsStateful(sched)
  {
    hide S.Shape, S.QueueBook, S.InOrder, S.Barrier;
    assert sched.stateful.None?;
  }

  /** A loop that was left holds a stateful command the server does not have in
      flight if and only if it gave it up. */
  lemma ExcludedLeft(l: S.Sched, modes: map<ExecId, Mode>)
    requires S.Inv(l) && S.GivesUpOwn(l) && LeftModes(l, modes)
    requires forall rid :: rid in modes ==> modes[rid].Parallel?
    ensures HoldsOnly(l, S.GivenUp(l))
  {
    hide S.Shape, S.QueueBook, S.InOrder, S.Barrier;
    if S.GivenUp(l).Some? {
      var t := l.running[l.stateful.value].ticket;
      assert S.IsRunning(l.book[t]) && l.book[t].mode.Stateful?;
      forall u | 0 <= u < |l.book| && S.IsRunning(l.book[u]) && l.book[u].mode.Stateful?
        ensures Some(l.book[u].execute.requestId) == S.GivenUp(l)
      {
        OneStateful(l, t, u);
      }
    } else {
      assert l.stateful.None?;
    }
  }

  lemma OneStateful(l: S.Sched, t: nat, u: nat)
    requires S.Inv(l) && t < |l.book| && u < |l.book|
    requires S.IsRunning(l.book[t]) && l.book[t].mode.Stateful? && S.IsRunning(l.book[u]) && l.book[u].mode.Stateful?
    ensures t == u
  {
    hide S.Shape, S.QueueBook, S.RunningBook, S.InOrder;
  }

  /** A connection of a session without stateful commands in flight carries and works none. */
  lemma ExcludedLink(sl: Slice, id: SessionId, c: Conn)
    requires sl.owner == Some(id) && sl.present && ConnInv(sl, c)
    requires forall rid :: rid in sl.inflight ==> sl.inflight[rid].Parallel?
    ensures sl.pending.Some? ==> sl.pending.value.1.Parallel?
    ensures NoStatefulAt(c, id)
  {
    hide S.Inv, S.ModesIn, S.Held, S.Owed, LeftModes, HoldsStateful, HoldsOnly, S.GivesUpOwn;
    if WaitingOk(sl, id, c) {
      NoCarried(c.down, id);
    } else if c.worker.Serving? {
      ExcludedLoop(c.worker.sched, sl.inflight);
    } else if LeftBy(c.worker).Some? {
      ExcludedLeft(LeftBy(c.worker).value, sl.inflight);
    }
  }

  /** While a terminal is attached, no stateful command of the session is in
      flight, about to reach its worker, on the wire, or waiting or running in its
      worker's loop; and a worker that has left its loop holds one if and only if
      it left because that command did not stop or left no readable state. */
  lemma MutualExclusion(labels: seq<Label>, id: SessionId)
    ensures var s := Exec(INIT, labels);
            id in s.pool.sessions && s.pool.sessions[id].terminal.Some? ==> NoStateful(s, id)
  {
    hide ConnInv, P.PoolInv, BooksInv, P.Holding, NoStatefulAt;
    Reachable(labels);
    var s := Exec(INIT, labels);
    if id in s.pool.sessions && s.pool.sessions[id].terminal.Some? {
      ExcludedFlight(s.pool, id);
      forall w | w in s.conns && w in s.pool.workerSessions && s.pool.workerSessions[w] == id
        ensures NoStatefulAt(s.conns[w], id)
        ensures SliceOf(s, w, s.conns[w].sink).pending.Some? ==>
                  SliceOf(s, w, s.conns[w].sink).pending.value.1.Parallel?
      {
        ExcludedLink(SliceOf(s, w, s.conns[w].sink), id, s.conns[w]);
      }
    }
  }

  // ---------------------------------------------------------------- ownership

  /** A worker is idle, or owned by one session, or neither, never both; the
      idle queue holds each registered worker at most once; and the sessions that
      hold a worker are exactly the ones their workers are named for. */
  lemma Ownership(labels: seq<Label>)
    ensures var p := Exec(INIT, labels).pool;
            && (forall i, j :: 0 <= i < j < |p.idle| ==> p.idle[i].workerId != p.idle[j].workerId)
            && (forall i :: 0 <= i < |p.idle| ==>
                  p.idle[i].workerId in p.liveness && p.idle[i].profile == p.liveness[p.idle[i].workerId]
                  && p.idle[i].workerId !in p.workerSessions)
            && (forall v, w :: v in p.workerSessions && w in p.workerSessions && v != w ==>
                  p.workerSessions[v] != p.workerSessions[w])
            && (forall id :: id in p.sessions && P.Holding(p.sessions[id].state) ==>
                  && p.sessions[id].workerId in p.workerSessions && p.workerSessions[p.sessions[id].workerId] == id
                  && p.sessions[id].workerId in p.liveness
                  && p.liveness[p.sessions[id].workerId] == p.sessions[id].profile)
            && |p.idle| + |p.workerSessions| <= |p.liveness|
  {
    hide BooksInv, LinksInv, P.RecordsInv, P.CountInv, P.InflightInv;
    Reachable(labels);
    var p := Exec(INIT, labels).pool;
    P.IdleIds(p.idle);
    P.SubsetSize(P.IdleSet(p.idle) + p.workerSessions.Keys, p.liveness.Keys);
    assert P.IdleSet(p.idle) !! p.workerSessions.Keys;
  }

  // --------------------------------------------------------------- idle reclaim

  /** Some command of the session is in flight. */
  ghost predicate InUse(s: Sys, id: SessionId) {
    exists rid :: rid in s.pool.inflight && s.pool.inflight[rid].sessionId == id
  }

  /** The sweeper's close changes nothing if and only if someone holds the send
      lock, or the session is unknown, not active, under a terminal, in use, or
      was last used within the limit. Otherwise it takes the session, which then,
      in that very step, has no command in flight at the server, on the wire, or
      held unanswered at its worker. */
  lemma IdleReclaim(labels: seq<Label>, id: SessionId, gate: P.Gate, waiter: nat)
    ensures var s := Exec(INIT, labels);
            var s' := Next(s, BeginClose(id, Some(gate), waiter));
            && (s' == s <==>
                  || id in s.holders
                  || id !in s.pool.sessions
                  || !s.pool.sessions[id].state.Active?
                  || s.pool.sessions[id].terminal.Some?
                  || InUse(s, id)
                  || gate.now - s.pool.sessions[id].lastActivityAt <= gate.ttl)
            && (s' != s ==>
                  && id in s.pool.sessions && id in s'.pool.sessions && s'.pool.sessions[id].state.Closing?
                  && id in s'.holders && s'.holders[id].Closer?
                  && (forall w :: w in s.conns && w in s.pool.workerSessions && s.pool.workerSessions[w] == id ==>
                        && Carried(s.conns[w].down, id) == multiset{}
                        && HeldBy(s.conns[w].worker) == multiset{}
                        && Answered(s.conns[w].up) == multiset{}))
  {
    hide Exec, Next, SysInv, P.Close, P.InflightOf, Carried, HeldBy, Answered, InUse;
    Reachable(labels);
    var s := Exec(INIT, labels);
    var l := BeginClose(id, Some(gate), waiter);
    NextAtPool(s, l);
    Reclaimed(s, id, gate, waiter);
    if Next(s, l) != s {
      forall w | w in s.conns && w in s.pool.workerSessions && s.pool.workerSessions[w] == id
        ensures Carried(s.conns[w].down, id) == multiset{} && HeldBy(s.conns[w].worker) == multiset{}
                && Answered(s.conns[w].up) == multiset{}
      {
        SliceNothing(s, w, id);
      }
    }
  }

  lemma SliceNothing(s: Sys, w: WorkerId, id: SessionId)
    requires SysInv(s) && w in s.conns && w in s.pool.workerSessions && s.pool.workerSessions[w] == id
    requires id in s.pool.sessions && P.InflightOf(s.pool.inflight, id) == map[]
    ensures Carried(s.conns[w].down, id) == multiset{} && HeldBy(s.conns[w].worker) == multiset{}
            && Answered(s.conns[w].up) == multiset{}
  {
    hide ConnInv, P.PoolInv, BooksInv, P.InflightOf;
    NothingHeld(SliceOf(s, w, s.conns[w].sink), id, s.conns[w]);
  }

  /** The gated close at the pool alone. */
  lemma GatedClose(p: P.Pool, id: SessionId, gate: P.Gate, waiter: nat)
    ensures var r := P.Close(p, id, Some(gate), waiter);
            if id in p.sessions && p.sessions[id].state.Active? && p.sessions[id].terminal.None?
               && P.InflightOf(p.inflight, id) == map[] && gate.now - p.sessions[id].lastActivityAt > gate.ttl
            then r.Ok? && r.value.1 == P.Wait(true) && id in r.value.0.sessions && r.value.0.sessions[id].state.Closing?
            else r.Err? || r.value == (p, P.Done)
  {
  }

  lemma Reclaimed(s: Sys, id: SessionId, gate: P.Gate, waiter: nat)
    ensures var s' := DoBeginClose(s, id, Some(gate), waiter);
            && (s' == s <==>
                  || id in s.holders
                  || id !in s.pool.sessions
                  || !s.pool.sessions[id].state.Active?
                  || s.pool.sessions[id].terminal.Some?
                  || InUse(s, id)
                  || gate.now - s.pool.sessions[id].lastActivityAt <= gate.ttl)
            && (s' != s ==>
                  && id in s.pool.sessions && id in s'.pool.sessions && s'.pool.sessions[id].state.Closing?
                  && id in s'.holders && s'.holders[id].Closer?
                  && P.InflightOf(s.pool.inflight, id) == map[])
  {
    hide P.Close, P.InflightOf, InUse;
    UnusedIs(s, id);
    if id !in s.holders {
      GatedClose(s.pool, id, gate, waiter);
    }
  }

  lemma UnusedIs(s: Sys, id: SessionId)
    ensures InUse(s, id) <==> P.InflightOf(s.pool.inflight, id) != map[]
  {
    if InUse(s, id) {
      var rid :| rid in s.pool.inflight && s.pool.inflight[rid].sessionId == id;
      assert rid in P.InflightOf(s.pool.inflight, id);
    }
  }

  /** A session without commands in flight has none anywhere. */
  lemma NothingHeld(sl: Slice, id: SessionId, c: Conn)
    requires sl.owner == Some(id) && sl.present && ConnInv(sl, c) && sl.inflight == map[]
    ensures Carried(c.down, id) == multiset{} && HeldBy(c.worker) == multiset{} && Answered(c.up) == multiset{}
  {
    hide S.Inv, S.Held, S.Owed, LeftOk;
    if WaitingOk(sl, id, c) {
      assert c.up == [];
    } else {
      assert multiset(sl.inflight.Keys) == multiset{};
      assert Whereabouts(sl, id, c) == multiset{};
    }
  }
}
