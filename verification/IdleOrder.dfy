/** Allocation over a run: the idle queue is ordered by when its workers became
    idle, and a new session gets the longest-idle worker of its profile. */
module IdleOrder {
  import opened Wrappers
  import opened Protocol
  import P = ServerPool
  import opened Link
  import opened System
  import opened Composition
  import R = SessionRuns
  import O = Outcomes
  import D = Drops

  /** The number of steps after which a worker, idle at the end of the run, last became idle. */
  function IdleSince(labels: seq<Label>, w: WorkerId): nat
    decreases |labels|
  {
    if labels == [] then 0
    else
      var before := labels[..|labels| - 1];
      if Idle(Exec(INIT, before).pool.idle, w) then IdleSince(before, w) else |labels|
  }

  lemma {:induction false} SinceBound(labels: seq<Label>, w: WorkerId)
    ensures IdleSince(labels, w) <= |labels|
    decreases |labels|
  {
    if labels != [] {
      SinceBound(labels[..|labels| - 1], w);
    }
  }

  ghost predicate Before(idle: seq<P.Entry>, v: WorkerId, w: WorkerId) {
    exists i, j :: 0 <= i < j < |idle| && idle[i].workerId == v && idle[j].workerId == w
  }

  /** The entries of `idle'` are entries of `idle` in the same order, and perhaps a new one at the end. */
  ghost predicate Edited(idle: seq<P.Entry>, idle': seq<P.Entry>) {
    forall i, j :: 0 <= i < j < |idle'| ==>
      || Before(idle, idle'[i].workerId, idle'[j].workerId)
      || (Idle(idle, idle'[i].workerId) && !Idle(idle, idle'[j].workerId))
  }

  lemma SameEdited(idle: seq<P.Entry>)
    ensures Edited(idle, idle)
  {
  }

  lemma AppendEdited(idle: seq<P.Entry>, e: P.Entry)
    requires !Idle(idle, e.workerId)
    ensures Edited(idle, idle + [e])
  {
    var idle' := idle + [e];
    forall i, j | 0 <= i < j < |idle'|
      ensures || Before(idle, idle'[i].workerId, idle'[j].workerId)
              || (Idle(idle, idle'[i].workerId) && !Idle(idle, idle'[j].workerId))
    {
      assert idle'[i] == idle[i];
    }
  }

  lemma RemoveEdited(idle: seq<P.Entry>, k: nat)
    requires k < |idle|
    ensures Edited(idle, P.RemoveAt(idle, k))
  {
    var idle' := P.RemoveAt(idle, k);
    forall i, j | 0 <= i < j < |idle'| ensures Before(idle, idle'[i].workerId, idle'[j].workerId) {
      var a, b := if i < k then i else i + 1, if j < k then j else j + 1;
      assert idle'[i] == idle[a] && idle'[j] == idle[b];
    }
  }

  lemma {:induction false} RetainBefore(idle: seq<P.Entry>, w: WorkerId, i: nat, j: nat)
    requires i < j < |P.Retain(idle, w)|
    ensures Before(idle, P.Retain(idle, w)[i].workerId, P.Retain(idle, w)[j].workerId)
  {
    var kept, rest := P.Retain(idle, w), P.Retain(idle[1..], w);
    var n := |kept| - |rest|;
    if n == 1 && i == 0 {
      var b := Source(idle[1..], w, j - 1);
      assert idle[b + 1] == kept[j];
    } else {
      RetainBefore(idle[1..], w, i - n, j - n);
      var a, b :| 0 <= a < b < |idle[1..]| && idle[1..][a].workerId == kept[i].workerId
                  && idle[1..][b].workerId == kept[j].workerId;
      assert idle[a + 1] == idle[1..][a] && idle[b + 1] == idle[1..][b];
    }
  }

  lemma {:induction false} Source(idle: seq<P.Entry>, w: WorkerId, j: nat) returns (b: nat)
    requires j < |P.Retain(idle, w)|
    ensures b < |idle| && idle[b] == P.Retain(idle, w)[j]
  {
    if idle[0].workerId != w && j == 0 {
      b := 0;
    } else {
      b := Source(idle[1..], w, if idle[0].workerId != w then j - 1 else j);
      b := b + 1;
    }
  }

  lemma RetainEdited(idle: seq<P.Entry>, w: WorkerId)
    ensures Edited(idle, P.Retain(idle, w))
  {
    forall i, j | 0 <= i < j < |P.Retain(idle, w)|
      ensures Before(idle, P.Retain(idle, w)[i].workerId, P.Retain(idle, w)[j].workerId)
    {
      RetainBefore(idle, w, i, j);
    }
  }

  lemma DeliverEdited(s: Sys, w: WorkerId, now: int)
    requires SysInv(s)
    ensures Edited(s.pool.idle, DoDeliver(s, w, now).pool.idle)
  {
    hide SysInv, Edited, P.SessionReady, P.CompleteRequest, P.SessionClosed;
    SameEdited(s.pool.idle);
    if w in s.conns && s.conns[w].up != [] {
      match s.conns[w].up[0]
      case SessionReady(id, error) => KeepIdle(s.pool, w, id, error, ExecId(""), now);
      case ResultOf(r) => KeepIdle(s.pool, w, SessionId(""), None, r.requestId, now);
      case SessionClosed(id, error, reusable) =>
        D.ReportOwned(s, w);
        OwnedNotIdle(s, w);
        ClosedEdited(s.pool, w, id, error, reusable, now);
      case _ =>
    }
  }

  lemma KeepIdle(p: P.Pool, w: WorkerId, id: SessionId, error: Option<string>, rid: ExecId, now: int)
    ensures P.SessionReady(p, w, id, error, now).idle == p.idle && P.CompleteRequest(p, rid, now).idle == p.idle
  {
  }

  lemma OwnedNotIdle(s: Sys, w: WorkerId)
    requires SysInv(s) && w in s.pool.workerSessions
    ensures !Idle(s.pool.idle, w)
  {
    hide BooksInv, LinksInv, P.OwnerInv, P.RecordsInv, P.CountInv, P.InflightInv;
  }

  lemma ClosedEdited(p: P.Pool, w: WorkerId, id: SessionId, error: Option<string>, reusable: bool, now: int)
    requires !Idle(p.idle, w)
    ensures P.SessionClosed(p, w, id, error, reusable, now).Some? ==>
              Edited(p.idle, P.SessionClosed(p, w, id, error, reusable, now).value.pool.idle)
  {
    hide Edited;
    if P.SessionClosed(p, w, id, error, reusable, now).Some? {
      AppendEdited(p.idle, P.Entry(w, p.sessions[id].profile, p.sessions[id].sink));
      SameEdited(p.idle);
    }
  }

  lemma HelloEdited(s: Sys, w: WorkerId, profile: string)
    requires P.PoolInv(s.pool)
    ensures Edited(s.pool.idle, DoHello(s, w, profile).pool.idle)
  {
    hide Edited, P.OwnerInv, P.RecordsInv, P.CountInv, P.InflightInv;
    SameEdited(s.pool.idle);
    if w !in s.pool.liveness {
      AppendEdited(s.pool.idle, P.Entry(w, profile, s.sinks));
    }
  }

  lemma CreateEdited(s: Sys, l: Label)
    requires l.CreateSession?
    ensures Edited(s.pool.idle, Next(s, l).pool.idle)
  {
    hide Edited, P.RemoveAt;
    SameEdited(s.pool.idle);
    var i := P.FirstOf(s.pool.idle, l.profile);
    if i < |s.pool.idle| {
      RemoveEdited(s.pool.idle, i);
    }
  }

  lemma DropEdited(s: Sys, l: Label)
    requires l.TakeDropped? || l.ForgetDropped?
    ensures Edited(s.pool.idle, Next(s, l).pool.idle)
  {
    hide Edited, P.Retain;
    SameEdited(s.pool.idle);
    if l.ForgetDropped? {
      RetainEdited(s.pool.idle, l.w);
    }
  }

  lemma RecordIdle(s: Sys, l: Label)
    requires l.ReplyCreated? || l.ForgetSessions? || l.Status? || l.AttachTerminal? || l.DetachTerminal?
    ensures Next(s, l).pool.idle == s.pool.idle
  {
  }

  lemma CommandIdle(s: Sys, l: Label)
    requires l.RegisterCommand? || l.BeginClose?
    ensures Next(s, l).pool.idle == s.pool.idle
  {
    if l.BeginClose? {
      hide DoBeginClose;
      if l.id in s.holders {
        O.HeldClose(s, l);
      } else {
        BeginCloseShape(s, l.id, l.gate, l.waiter);
      }
    }
  }

  lemma HandleIdle(s: Sys, l: Label)
    requires l.CancelCommand? || l.SettleHandle? || l.SpoolError? || l.PurgeHandle?
    ensures Next(s, l).pool.idle == s.pool.idle
  {
    hide P.Settle;
  }

  lemma StepEdited(s: Sys, l: Label)
    requires SysInv(s)
    ensures Edited(s.pool.idle, Next(s, l).pool.idle)
  {
    hide SysInv, Edited, Next;
    SameEdited(s.pool.idle);
    if l.Deliver? {
      NextAtPool(s, l);
      DeliverEdited(s, l.w, l.now);
    } else if l.Hello? {
      HelloNext(s, l);
    } else if l.CreateSession? {
      CreateEdited(s, l);
    } else if l.TakeDropped? || l.ForgetDropped? {
      DropEdited(s, l);
    } else if AtServer(l) || AtWorker(l) {
      R.LinkForward(s, l);
    } else if l.RegisterCommand? || l.BeginClose? {
      CommandIdle(s, l);
    } else if l.CancelCommand? || l.SettleHandle? || l.SpoolError? || l.PurgeHandle? {
      HandleIdle(s, l);
    } else {
      RecordIdle(s, l);
    }
  }

  lemma HelloNext(s: Sys, l: Label)
    requires SysInv(s) && l.Hello?
    ensures Edited(s.pool.idle, Next(s, l).pool.idle)
  {
    hide P.PoolInv, Edited;
    HelloEdited(s, l.w, l.profile);
  }

  /** After any run, a worker ahead of another in the idle queue became idle before it. */
  lemma {:induction false} OrderedBySince(labels: seq<Label>, i: nat, j: nat)
    requires i < j < |Exec(INIT, labels).pool.idle|
    ensures var idle := Exec(INIT, labels).pool.idle;
            IdleSince(labels, idle[i].workerId) < IdleSince(labels, idle[j].workerId)
    decreases |labels|
  {
    hide Next, SysInv;
    if labels != [] {
      var before, l := labels[..|labels| - 1], labels[|labels| - 1];
      var s, idle' := Exec(INIT, before), Exec(INIT, labels).pool.idle;
      LastStep(labels);
      Reachable(before);
      StepEdited(s, l);
      var v, w := idle'[i].workerId, idle'[j].workerId;
      if Before(s.pool.idle, v, w) {
        var a, b :| 0 <= a < b < |s.pool.idle| && s.pool.idle[a].workerId == v && s.pool.idle[b].workerId == w;
        OrderedBySince(before, a, b);
      } else {
        SinceBound(before, v);
      }
    }
  }

  /** After any run, a new session gets, of all idle workers of its profile, the
      one that has been idle longest; and it is refused exactly when the profile
      has no worker, or none idle. */
  lemma LeastRecentlyIdle(labels: seq<Label>, profile: string, id: SessionId, inputs: P.Inputs, now: int)
    ensures var p := Exec(INIT, labels).pool;
            var r := P.Create(p, profile, id, inputs, now);
            if r.Ok? then
              var e := r.value.1;
              && e in p.idle && e.profile == profile
              && (forall i :: 0 <= i < |p.idle| && p.idle[i].profile == profile && p.idle[i] != e ==>
                    IdleSince(labels, e.workerId) < IdleSince(labels, p.idle[i].workerId))
            else
              && (forall i :: 0 <= i < |p.idle| ==> p.idle[i].profile != profile)
              && (r.error.UnknownProfile? <==> forall w :: w in p.liveness ==> p.liveness[w] != profile)
              && (r.error.UnknownProfile? || r.error.Busy?)
  {
    hide Next, Exec, BooksInv, LinksInv, P.OwnerInv, P.RecordsInv, P.CountInv, P.InflightInv;
    var p := Exec(INIT, labels).pool;
    Reachable(labels);
    assert profile in p.liveness.Values <==> exists w :: w in p.liveness && p.liveness[w] == profile;
    var k := P.FirstOf(p.idle, profile);
    forall i | 0 <= i < |p.idle| && p.idle[i].profile == profile && i != k && k < |p.idle|
      ensures IdleSince(labels, p.idle[k].workerId) < IdleSince(labels, p.idle[i].workerId)
    {
      OrderedBySince(labels, k, i);
    }
  }
}
