/** Watching a stateful command: `watch_stateful_job` in shiitake-worker/src/client.rs
    polls until the command has completed, asks the shell to interrupt it once when
    it is cancelled, and gives up on it two seconds later. */
module StatefulWatch {
  import opened Wrappers

  /** What one poll sees: whether the completion marker has passed, the status
      file's number if it can be read, the cancel flag, whether the session loop
      still listens; and the clock in milliseconds, `now` before an interrupt is
      sent and `later` when its age is looked at, which is after a send that may
      have had to wait. */
  datatype Poll = Poll(now: nat, later: nat, completed: bool, status: Option<int>, cancel: bool, listening: bool)

  datatype Report = Interrupt | Finished(exitCode: int, cancelled: bool) | Abort

  const PATIENCE: nat := 2000

  /** `cancelled` in the report is whether the command was interrupted. */
  function Watch(interruptedAt: Option<nat>, polls: seq<Poll>): seq<Report>
    decreases |polls|
  {
    if polls == [] then []
    else
      var p := polls[0];
      if p.completed && p.status.Some? then [Finished(p.status.value, interruptedAt.Some?)]
      else
        var first := interruptedAt.None? && p.cancel;
        var at := if first then Some(p.now) else interruptedAt;
        (if first then [Interrupt] else [])
        + (if first && !p.listening then []
           else if at.Some? && p.later > at.value + PATIENCE then [Abort]
           else Watch(at, polls[1..]))
  }

  method WatchStatefulJob(polls: seq<Poll>) returns (reports: seq<Report>)
    ensures reports == Watch(None, polls)
    ensures forall k: nat, c: nat :: Firsts(polls, k, c) ==> reports == Expected(polls, k, c)
  {
    forall k: nat, c: nat | Firsts(polls, k, c) ensures Watch(None, polls) == Expected(polls, k, c) {
      WatchExactly(polls, k, c);
    }
    reports := [];
    var interruptedAt: Option<nat> := None;
    var cancelled := false;
    var i := 0;
    while i < |polls|
      invariant i <= |polls| && (cancelled <==> interruptedAt.Some?)
      invariant reports + Watch(interruptedAt, polls[i..]) == Watch(None, polls)
    {
      var p := polls[i];
      ghost var said, rest := reports, polls[i + 1..];
      assert polls[i..][0] == p && polls[i..][1..] == rest;
      i := i + 1;
      if p.completed && p.status.Some? {
        reports := reports + [Finished(p.status.value, cancelled)];
        return;
      }
      ghost var first := interruptedAt.None? && p.cancel;
      if interruptedAt.None? && p.cancel {
        cancelled := true;
        interruptedAt := Some(p.now);
        reports := reports + [Interrupt];
        if !p.listening { return; }
      }
      if interruptedAt.Some? && p.later > interruptedAt.value + PATIENCE {
        reports := reports + [Abort];
        return;
      }
      Said(said, if first then [Interrupt] else [], Watch(interruptedAt, rest));
    }
    assert reports + [] == reports;
  }

  lemma Said(said: seq<Report>, now: seq<Report>, rest: seq<Report>)
    ensures said + (now + rest) == (said + now) + rest
    ensures said + [] == said && [] + rest == rest
  {
  }

  predicate Completes(p: Poll) { p.completed && p.status.Some? }

  /** The last report of a watch that began interrupted at a time, or not. */
  ghost predicate EndsBy(at: Option<nat>, polls: seq<Poll>, r: Report) {
    match r
    case Interrupt => false
    case Finished(code, cancelled) =>
      exists k :: 0 <= k < |polls| && Completes(polls[k]) && polls[k].status == Some(code)
                  && (forall j :: 0 <= j < k ==> !Completes(polls[j]))
                  && (cancelled <==> at.Some? || exists j :: 0 <= j < k && polls[j].cancel)
    case Abort =>
      exists k :: 0 <= k < |polls| && (forall j :: 0 <= j <= k ==> !Completes(polls[j]))
                  && (if at.Some? then polls[k].later > at.value + PATIENCE
                      else exists j :: 0 <= j <= k && polls[j].cancel && polls[k].later > polls[j].now + PATIENCE)
  }

  lemma Shift(polls: seq<Poll>)
    requires polls != []
    ensures forall i :: 0 <= i < |polls| - 1 ==> polls[1..][i] == polls[i + 1]
  {
  }

  lemma Later(at: Option<nat>, at': Option<nat>, polls: seq<Poll>, r: Report)
    requires polls != [] && !Completes(polls[0])
    requires at' == if at.None? && polls[0].cancel then Some(polls[0].now) else at
    requires EndsBy(at', polls[1..], r)
    ensures EndsBy(at, polls, r)
  {
    Shift(polls);
    if r.Finished? {
      var rest := polls[1..];
      var k :| 0 <= k < |rest| && Completes(rest[k]) && rest[k].status == Some(r.exitCode)
               && (forall j :: 0 <= j < k ==> !Completes(rest[j]))
               && (r.cancelled <==> at'.Some? || exists j :: 0 <= j < k && rest[j].cancel);
      assert Completes(polls[k + 1]);
      forall j | 0 <= j < k + 1 ensures !Completes(polls[j]) {
        if j > 0 { assert polls[j] == rest[j - 1]; }
      }
      if j :| 0 <= j < k && rest[j].cancel {
        assert polls[j + 1].cancel;
      }
      if j :| 0 <= j < k + 1 && polls[j].cancel {
        if j > 0 { assert rest[j - 1].cancel; }
      }
    } else if r.Abort? {
      var rest := polls[1..];
      var k :| 0 <= k < |rest| && (forall j :: 0 <= j <= k ==> !Completes(rest[j]))
               && (if at'.Some? then rest[k].later > at'.value + PATIENCE
                   else exists j :: 0 <= j <= k && rest[j].cancel && rest[k].later > rest[j].now + PATIENCE);
      assert polls[k + 1] == rest[k];
      forall j | 0 <= j <= k + 1 ensures !Completes(polls[j]) {
        if j > 0 { assert polls[j] == rest[j - 1]; }
      }
      if at'.None? {
        var j :| 0 <= j <= k && rest[j].cancel && rest[k].later > rest[j].now + PATIENCE;
        assert polls[j + 1] == rest[j];
      }
    }
  }

  /** The shape of what a watch says from a given point on. */
  ghost predicate Orderly(at: Option<nat>, polls: seq<Poll>, reports: seq<Report>) {
    if at.None? && reports != [] && reports[0].Interrupt?
    then |reports| <= 2 && (exists j :: 0 <= j < |polls| && polls[j].cancel)
         && (|reports| == 2 ==> EndsBy(at, polls, reports[1]))
    else |reports| <= 1 && (|reports| == 1 ==> EndsBy(at, polls, reports[0])) && (at.None? ==> Abort !in reports)
  }

  /** The first poll settles the matter. */
  lemma EndsHere(at: Option<nat>, polls: seq<Poll>, r: Report)
    requires polls != []
    requires || (Completes(polls[0]) && r == Finished(polls[0].status.value, at.Some?))
             || (!Completes(polls[0]) && r.Abort?
                 && (if at.Some? then polls[0].later > at.value + PATIENCE
                     else polls[0].cancel && polls[0].later > polls[0].now + PATIENCE))
    ensures EndsBy(at, polls, r)
  {
  }

  /** The first poll interrupts, and the watch goes on. */
  lemma InterruptOrderly(polls: seq<Poll>, more: seq<Report>)
    requires polls != [] && !Completes(polls[0]) && polls[0].cancel
    requires Orderly(Some(polls[0].now), polls[1..], more)
    ensures Orderly(None, polls, [Interrupt] + more)
  {
    hide EndsBy;
    var reports := [Interrupt] + more;
    assert polls[0].cancel;
    if more != [] {
      assert reports[1] == more[0];
      Later(None, Some(polls[0].now), polls, more[0]);
    }
  }

  /** The first poll says nothing, and the watch goes on. */
  lemma WaitOrderly(at: Option<nat>, polls: seq<Poll>, reports: seq<Report>)
    requires polls != [] && !Completes(polls[0]) && !(at.None? && polls[0].cancel)
    requires Orderly(at, polls[1..], reports)
    ensures Orderly(at, polls, reports)
  {
    hide EndsBy;
    if at.None? && reports != [] && reports[0].Interrupt? {
      var j :| 0 <= j < |polls[1..]| && polls[1..][j].cancel;
      assert polls[j + 1].cancel;
      if |reports| == 2 {
        Later(at, at, polls, reports[1]);
      }
    } else if |reports| == 1 {
      Later(at, at, polls, reports[0]);
    }
  }

  lemma {:induction false} WatchOrderly(at: Option<nat>, polls: seq<Poll>)
    ensures Orderly(at, polls, Watch(at, polls))
    decreases |polls|
  {
    hide EndsBy;
    if polls != [] {
      var p, rest := polls[0], polls[1..];
      if Completes(p) {
        EndsHere(at, polls, Finished(p.status.value, at.Some?));
      } else if at.None? && p.cancel {
        assert polls[0].cancel;
        if p.listening && p.later > p.now + PATIENCE {
          EndsHere(at, polls, Abort);
          assert Watch(at, polls) == [Interrupt, Abort];
        } else if p.listening {
          WatchOrderly(Some(p.now), rest);
          hide Orderly;
          InterruptOrderly(polls, Watch(Some(p.now), rest));
        } else {
          assert Watch(at, polls) == [Interrupt];
        }
      } else if at.Some? && p.later > at.value + PATIENCE {
        EndsHere(at, polls, Abort);
        assert Watch(at, polls) == [Abort];
      } else {
        WatchOrderly(at, rest);
        assert Watch(at, polls) == Watch(at, rest);
        hide Orderly;
        WaitOrderly(at, polls, Watch(at, rest));
      }
    }
  }

  lemma Ending(polls: seq<Poll>, r: Report)
    requires EndsBy(None, polls, r)
    ensures !r.Interrupt?
  {
  }

  /** Whatever the polls see: the shell is asked to interrupt at most once, and
      only after a cancel; then at most one report follows. A result is the first
      completed status and says cancelled exactly when a cancel was seen before
      it; an abort comes only after an interrupt, more than two seconds later, and
      if the command had not completed by then. */
  lemma OneReport(polls: seq<Poll>)
    ensures var reports := Watch(None, polls);
            && |reports| <= 2
            && (|reports| == 2 ==> reports[0].Interrupt?)
            && (forall i :: 0 <= i < |reports| && reports[i].Interrupt? ==>
                  i == 0 && exists j :: 0 <= j < |polls| && polls[j].cancel)
            && (forall i :: 0 <= i < |reports| && !reports[i].Interrupt? ==>
                  i == |reports| - 1 && EndsBy(None, polls, reports[i]))
            && (Abort in reports ==> reports == [Interrupt, Abort])
  {
    hide Watch, EndsBy;
    WatchOrderly(None, polls);
    var reports := Watch(None, polls);
    if |reports| == 2 {
      Ending(polls, reports[1]);
    } else if |reports| == 1 && !reports[0].Interrupt? {
      Ending(polls, reports[0]);
    }
  }

  // ------------------------------------------------------------ what it does say

  /** The first poll that sees the command completed with a status, and the first
      that sees a cancel; where there is none, the number of polls. */
  ghost predicate Firsts(polls: seq<Poll>, k: nat, c: nat) {
    && k <= |polls| && c <= |polls|
    && (forall j :: 0 <= j < k ==> !(polls[j].completed && polls[j].status.Some?))
    && (k < |polls| ==> polls[k].completed && polls[k].status.Some?)
    && (forall j :: 0 <= j < c ==> !polls[j].cancel)
    && (c < |polls| ==> polls[c].cancel)
  }

  /** There always are two such numbers. */
  lemma FirstsOf(polls: seq<Poll>) returns (k: nat, c: nat)
    ensures Firsts(polls, k, c)
  {
    k, c := 0, 0;
    while k < |polls| && !Completes(polls[k])
      invariant k <= |polls| && forall j :: 0 <= j < k ==> !Completes(polls[j])
    {
      k := k + 1;
    }
    while c < |polls| && !polls[c].cancel
      invariant c <= |polls| && forall j :: 0 <= j < c ==> !polls[j].cancel
    {
      c := c + 1;
    }
  }

  /** What a watch says, over the polls alone. The completed status is reported,
      unless an interrupt went unheard or a poll before the completion came more
      than 2000 milliseconds after it; the first cancel before the completion is
      followed by an interrupt, and such a late poll by an abort. */
  ghost function Expected(polls: seq<Poll>, k: nat, c: nat): seq<Report>
    requires Firsts(polls, k, c)
  {
    if k <= c then (if k < |polls| then [Finished(polls[k].status.value, false)] else [])
    else if !polls[c].listening then [Interrupt]
    else if exists t :: c <= t < k && polls[t].later > polls[c].now + 2000 then [Interrupt, Abort]
    else if k < |polls| then [Interrupt, Finished(polls[k].status.value, true)]
    else [Interrupt]
  }

  lemma FirstsRest(polls: seq<Poll>, k: nat, c: nat)
    requires Firsts(polls, k, c) && polls != [] && k > 0
    ensures c > 0 ==> Firsts(polls[1..], k - 1, c - 1)
  {
    Shift(polls);
  }

  /** Once interrupted: an abort if some poll before the completion comes too late, else the result. */
  lemma {:induction false} InterruptedExactly(at: nat, polls: seq<Poll>, k: nat)
    requires k <= |polls| && (forall j :: 0 <= j < k ==> !Completes(polls[j])) && (k < |polls| ==> Completes(polls[k]))
    ensures Watch(Some(at), polls)
            == if exists t :: 0 <= t < k && polls[t].later > at + 2000 then [Abort]
               else if k < |polls| then [Finished(polls[k].status.value, true)]
               else []
    decreases |polls|
  {
    if k > 0 {
      var rest := polls[1..];
      Shift(polls);
      if polls[0].later > at + 2000 {
        assert exists t :: 0 <= t < k && polls[t].later > at + 2000;
      } else {
        InterruptedExactly(at, rest, k - 1);
        if t :| 0 <= t < k && polls[t].later > at + 2000 {
          assert rest[t - 1] == polls[t];
        }
        if t :| 0 <= t < k - 1 && rest[t].later > at + 2000 {
          assert rest[t] == polls[t + 1];
        }
      }
    }
  }

  /** For every sequence of polls, a watch says that and nothing else. */
  lemma {:induction false} WatchExactly(polls: seq<Poll>, k: nat, c: nat)
    requires Firsts(polls, k, c)
    ensures Watch(None, polls) == Expected(polls, k, c)
    decreases |polls|
  {
    if polls != [] && k > 0 {
      var p, rest := polls[0], polls[1..];
      Shift(polls);
      assert !Completes(p);
      if c > 0 {
        FirstsRest(polls, k, c);
        WatchExactly(rest, k - 1, c - 1);
        assert Watch(None, polls) == Watch(None, rest);
        if k > c {
          LateShift(polls, c, k, polls[c].now + 2000);
        }
      } else if p.listening {
        if p.later > p.now + 2000 {
          assert Watch(None, polls) == [Interrupt, Abort];
        } else {
          InterruptedExactly(p.now, rest, k - 1);
          assert Watch(None, polls) == [Interrupt] + Watch(Some(p.now), rest);
          LateAfter(polls, k, p.now + 2000);
        }
      }
    }
  }

  lemma LateShift(polls: seq<Poll>, c: nat, k: nat, limit: nat)
    requires 0 < c < k <= |polls|
    ensures (exists t :: c <= t < k && polls[t].later > limit)
            <==> exists t :: c - 1 <= t < k - 1 && polls[1..][t].later > limit
  {
    if t :| c <= t < k && polls[t].later > limit {
      assert polls[1..][t - 1] == polls[t];
    }
    if t :| c - 1 <= t < k - 1 && polls[1..][t].later > limit {
      assert polls[1..][t] == polls[t + 1];
    }
  }

  lemma LateAfter(polls: seq<Poll>, k: nat, limit: nat)
    requires 0 < k <= |polls| && polls[0].later <= limit
    ensures (exists t :: 0 <= t < k && polls[t].later > limit)
            <==> exists t :: 0 <= t < k - 1 && polls[1..][t].later > limit
  {
    if t :| 0 <= t < k && polls[t].later > limit {
      assert polls[1..][t - 1] == polls[t];
    }
    if t :| 0 <= t < k - 1 && polls[1..][t].later > limit {
      assert polls[1..][t] == polls[t + 1];
    }
  }
}
