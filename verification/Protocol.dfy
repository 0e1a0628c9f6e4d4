/** Identifiers and dispatch frames shared by the server and the workers
    (shiitake-worker-api/src/lib.rs). Only the session vocabulary is kept. */
module Protocol {
  import opened Wrappers

  datatype WorkerId = WorkerId(text: string)
  datatype ExecId = ExecId(text: string)
  datatype SessionId = SessionId(text: string)

  datatype Mode = Stateful | Parallel

  datatype DropTo = DropTo(uid: nat, gid: nat)

  /** A command as it travels on the wire and as it is handed to a job. */
  datatype Execute = Execute(
    requestId: ExecId,
    command: string,
    workingDir: string,
    env: map<string, string>,
    dropTo: Option<DropTo>)

  datatype ResultFrame = ResultFrame(
    requestId: ExecId,
    exitCode: Option<int>,
    exitSignal: Option<int>,
    cancelled: bool,
    error: Option<string>)

  function Errored(requestId: ExecId, message: string): ResultFrame {
    ResultFrame(requestId, None, None, false, Some(message))
  }

  datatype Frame =
    | SessionOpen(sessionId: SessionId, workingDir: string, env: map<string, string>, dropTo: Option<DropTo>)
    | SessionReady(sessionId: SessionId, error: Option<string>)
    | SessionRun(sessionId: SessionId, execute: Execute, mode: Mode)
    | Cancel(requestId: ExecId)
    | SessionClose(sessionId: SessionId)
    | SessionClosed(sessionId: SessionId, error: Option<string>, reusable: bool)
    | ResultOf(result: ResultFrame)

  /** The commands answered by a list of frames, with multiplicity. */
  function Answered(frames: seq<Frame>): multiset<ExecId> {
    if frames == [] then multiset{}
    else (if frames[0].ResultOf? then multiset{frames[0].result.requestId} else multiset{})
         + Answered(frames[1..])
  }

  /** The commands of one session carried by a list of frames, with multiplicity. */
  function Carried(frames: seq<Frame>, id: SessionId): multiset<ExecId> {
    if frames == [] then multiset{}
    else (if frames[0].SessionRun? && frames[0].sessionId == id
          then multiset{frames[0].execute.requestId} else multiset{})
         + Carried(frames[1..], id)
  }

  lemma {:induction false} AnsweredConcat(a: seq<Frame>, b: seq<Frame>)
    ensures Answered(a + b) == Answered(a) + Answered(b)
  {
    if a == [] {
      assert a + b == b;
    } else {
      assert (a + b)[1..] == a[1..] + b;
      AnsweredConcat(a[1..], b);
    }
  }

  lemma {:induction false} CarriedConcat(a: seq<Frame>, b: seq<Frame>, id: SessionId)
    ensures Carried(a + b, id) == Carried(a, id) + Carried(b, id)
  {
    if a == [] {
      assert a + b == b;
    } else {
      assert (a + b)[1..] == a[1..] + b;
      CarriedConcat(a[1..], b, id);
    }
  }

  /** The sessions opened by a list of frames, in order. */
  function Opens(frames: seq<Frame>): seq<SessionId> {
    if frames == [] then []
    else (if frames[0].SessionOpen? then [frames[0].sessionId] else []) + Opens(frames[1..])
  }

  lemma {:induction false} OpensConcat(a: seq<Frame>, b: seq<Frame>)
    ensures Opens(a + b) == Opens(a) + Opens(b)
  {
    if a == [] {
      assert a + b == b;
    } else {
      assert (a + b)[0] == a[0] && (a + b)[1..] == a[1..] + b;
      OpensConcat(a[1..], b);
      var first := if a[0].SessionOpen? then [a[0].sessionId] else [];
      assert first + (Opens(a[1..]) + Opens(b)) == first + Opens(a[1..]) + Opens(b);
    }
  }

  lemma OneFrame(f: Frame, id: SessionId)
    ensures Answered([f]) == (if f.ResultOf? then multiset{f.result.requestId} else multiset{})
    ensures Carried([f], id)
            == (if f.SessionRun? && f.sessionId == id then multiset{f.execute.requestId} else multiset{})
    ensures Opens([f]) == (if f.SessionOpen? then [f.sessionId] else [])
  {
    assert [f][1..] == [];
  }

  /** One more frame at the end of a channel. */
  lemma PushFrame(frames: seq<Frame>, f: Frame, id: SessionId)
    ensures Answered(frames + [f]) == Answered(frames)
            + (if f.ResultOf? then multiset{f.result.requestId} else multiset{})
    ensures Carried(frames + [f], id) == Carried(frames, id)
            + (if f.SessionRun? && f.sessionId == id then multiset{f.execute.requestId} else multiset{})
    ensures Opens(frames + [f]) == Opens(frames) + (if f.SessionOpen? then [f.sessionId] else [])
  {
    hide Answered, Carried, Opens;
    OneFrame(f, id);
    AnsweredConcat(frames, [f]);
    CarriedConcat(frames, [f], id);
    OpensConcat(frames, [f]);
  }
}
