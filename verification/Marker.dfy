/** Taking the completion marker out of the PTY stream: `ShellCompletion::feed` in
    shiitake-worker/src/client.rs. The stream arrives in chunks of any size. */
module Marker {
  import opened Wrappers
  import opened Bytes

  /** `windows(m.len()).position(|w| w == m)` */
  function Find(s: seq<byte>, m: seq<byte>): (r: Option<nat>)
    ensures r.Some? ==> At(s, m, r.value) && forall p: nat :: p < r.value ==> !At(s, m, p)
    ensures r.None? ==> forall p: nat :: !At(s, m, p)
  {
    FindFrom(s, m, 0)
  }

  function FindFrom(s: seq<byte>, m: seq<byte>, from: nat): (r: Option<nat>)
    ensures r.Some? ==> from <= r.value && At(s, m, r.value) && forall p: nat :: from <= p < r.value ==> !At(s, m, p)
    ensures r.None? ==> forall p: nat :: from <= p ==> !At(s, m, p)
    decreases |s| - from
  {
    if from + |m| > |s| then None
    else if At(s, m, from) then Some(from)
    else FindFrom(s, m, from + 1)
  }

  /** From position `p` on, `s` is the start of `m` but not all of it. */
  predicate Partial(s: seq<byte>, m: seq<byte>, p: nat) {
    p <= |s| < p + |m| && forall i :: p <= i < |s| ==> s[i] == m[i - p]
  }

  /** The most bytes, at most `n`, of the start of the marker that `s` ends in. */
  function Tail(s: seq<byte>, m: seq<byte>, n: nat): (k: nat)
    requires n < |m|
    ensures k <= n && k <= |s| && Partial(s, m, |s| - k)
    ensures forall p: nat :: |s| - n <= p < |s| - k ==> !Partial(s, m, p)
  {
    if n == 0 then 0
    else if n <= |s| && Partial(s, m, |s| - n) then n
    else Tail(s, m, n - 1)
  }

  /** The scanner between reads. */
  datatype Scan = Scan(pending: seq<byte>, seen: bool)

  const IDLE := Scan([], false)

  function Feed(m: seq<byte>, s: Scan, bytes: seq<byte>): (Scan, seq<byte>)
    requires m != []
  {
    if s.seen then (s, bytes)
    else
      var all := s.pending + bytes;
      var pos := Find(all, m);
      if pos.Some? then (Scan([], true), all[..pos.value] + all[pos.value + |m|..])
      else
        var ready := |all| - Tail(all, m, |m| - 1);
        (Scan(all[ready..], false), all[..ready])
  }

  function FeedAll(m: seq<byte>, s: Scan, chunks: seq<seq<byte>>): (Scan, seq<byte>)
    requires m != []
    decreases |chunks|
  {
    if chunks == [] then (s, [])
    else
      var (s1, out) := Feed(m, s, chunks[0]);
      var (s2, rest) := FeedAll(m, s1, chunks[1..]);
      (s2, out + rest)
  }

  function Concat(chunks: seq<seq<byte>>): seq<byte> {
    if chunks == [] then [] else chunks[0] + Concat(chunks[1..])
  }

  /** The stream with the first occurrence of the marker, if any, taken out. */
  function Strip(m: seq<byte>, stream: seq<byte>): seq<byte> {
    var pos := Find(stream, m);
    if pos.Some? then stream[..pos.value] + stream[pos.value + |m|..] else stream
  }

  /** `out` has been passed on of `stream`: all of it but the first marker, or,
      while no marker has been seen, all but what may turn out to be the start of one. */
  ghost predicate Follows(m: seq<byte>, stream: seq<byte>, out: seq<byte>, s: Scan) {
    if s.seen then s.pending == [] && Find(stream, m).Some? && out == Strip(m, stream)
    else
      && Find(stream, m).None?
      && stream == out + s.pending
      && Partial(stream, m, |out|)
      && (forall p: nat :: p < |out| ==> !Partial(stream, m, p))
  }

  /** A marker in a longer stream is already whole, or has already begun, or lies in the new bytes. */
  lemma Inherit(stream: seq<byte>, bytes: seq<byte>, m: seq<byte>, p: nat)
    ensures At(stream + bytes, m, p) && p <= |stream| ==> At(stream, m, p) || Partial(stream, m, p)
    ensures Partial(stream + bytes, m, p) && p <= |stream| ==> Partial(stream, m, p)
    ensures At(stream, m, p) ==> At(stream + bytes, m, p)
  {
    assert forall i :: 0 <= i < |stream| ==> (stream + bytes)[i] == stream[i];
  }

  /** Positions in what is held back and the new bytes are positions in the stream. */
  lemma Shifted(out: seq<byte>, rest: seq<byte>, m: seq<byte>, p: nat)
    ensures At(out + rest, m, |out| + p) <==> At(rest, m, p)
    ensures Partial(out + rest, m, |out| + p) <==> Partial(rest, m, p)
  {
    assert forall i :: 0 <= i < |rest| ==> (out + rest)[|out| + i] == rest[i];
    assert forall i :: |out| <= i < |out| + |rest| ==> (out + rest)[i] == rest[i - |out|];
  }

  lemma FindShifted(m: seq<byte>, stream: seq<byte>, out: seq<byte>, s: Scan, bytes: seq<byte>)
    requires Follows(m, stream, out, s) && !s.seen
    ensures var pos := Find(s.pending + bytes, m);
            Find(stream + bytes, m) == if pos.Some? then Some(|out| + pos.value) else None
  {
    hide At, Partial, FindFrom;
    var rest := s.pending + bytes;
    assert stream + bytes == out + rest;
    forall p: nat | p < |out| ensures !At(stream + bytes, m, p) {
      Inherit(stream, bytes, m, p);
    }
    forall p: nat ensures At(stream + bytes, m, |out| + p) <==> At(rest, m, p) {
      Shifted(out, rest, m, p);
    }
    var pos := Find(rest, m);
    forall p: nat | p >= |out| ensures At(stream + bytes, m, p) <==> At(rest, m, p - |out|) {
      assert At(stream + bytes, m, |out| + (p - |out|)) <==> At(rest, m, p - |out|);
    }
    FirstFound(stream + bytes, m, if pos.Some? then Some(|out| + pos.value) else None);
  }

  /** The first occurrence is what `Find` returns. */
  lemma FirstFound(s: seq<byte>, m: seq<byte>, r: Option<nat>)
    requires r.Some? ==> At(s, m, r.value) && forall p: nat :: p < r.value ==> !At(s, m, p)
    requires r.None? ==> forall p: nat :: !At(s, m, p)
    ensures Find(s, m) == r
  {
    hide At, FindFrom;
    var found := Find(s, m);
    if found.Some? && r.Some? {
      assert !(found.value < r.value) && !(r.value < found.value);
    }
  }

  /** Nothing passed on can be the start of a marker. */
  lemma HeldEnough(m: seq<byte>, stream: seq<byte>, out: seq<byte>, s: Scan, bytes: seq<byte>, p: nat)
    requires m != [] && Follows(m, stream, out, s) && !s.seen
    requires p < |out| + |s.pending + bytes| - Tail(s.pending + bytes, m, |m| - 1)
    ensures !Partial(stream + bytes, m, p)
  {
    hide At, FindFrom;
    var rest := s.pending + bytes;
    assert stream + bytes == out + rest;
    if p < |out| {
      hide Partial;
      Inherit(stream, bytes, m, p);
    } else {
      Shifted(out, rest, m, p - |out|);
      if p - |out| >= |rest| - (|m| - 1) {
        assert !Partial(rest, m, p - |out|);
      }
    }
  }

  lemma UnseenFollows(m: seq<byte>, stream: seq<byte>, out: seq<byte>, s: Scan, bytes: seq<byte>)
    requires m != [] && Follows(m, stream, out, s) && !s.seen && Find(s.pending + bytes, m).None?
    ensures var (s', more) := Feed(m, s, bytes); Follows(m, stream + bytes, out + more, s')
  {
    hide At, Partial, FindFrom;
    var (s', more) := Feed(m, s, bytes);
    var rest := s.pending + bytes;
    FindShifted(m, stream, out, s, bytes);
    assert stream + bytes == out + rest;
    Shifted(out, rest, m, |more|);
    forall p: nat | p < |out + more| ensures !Partial(stream + bytes, m, p) {
      HeldEnough(m, stream, out, s, bytes, p);
    }
    assert rest == more + s'.pending;
    assert stream + bytes == out + more + s'.pending;
  }

  lemma SeenFollows(m: seq<byte>, stream: seq<byte>, out: seq<byte>, s: Scan, bytes: seq<byte>)
    requires m != [] && Follows(m, stream, out, s) && !s.seen && Find(s.pending + bytes, m).Some?
    ensures var (s', more) := Feed(m, s, bytes); Follows(m, stream + bytes, out + more, s')
  {
    hide At, Partial, FindFrom;
    FindShifted(m, stream, out, s, bytes);
    var rest := s.pending + bytes;
    var pos := Find(rest, m).value;
    FindFits(rest, m);
    assert stream + bytes == out + rest;
    assert (stream + bytes)[..|out| + pos] == out + rest[..pos];
    assert (stream + bytes)[|out| + pos + |m|..] == rest[pos + |m|..];
  }

  lemma FindFits(s: seq<byte>, m: seq<byte>)
    ensures Find(s, m).Some? ==> Find(s, m).value + |m| <= |s|
  {
  }

  /** Once the marker has been seen, everything is passed on. */
  lemma AfterFollows(m: seq<byte>, stream: seq<byte>, out: seq<byte>, s: Scan, bytes: seq<byte>)
    requires m != [] && Follows(m, stream, out, s) && s.seen
    ensures Follows(m, stream + bytes, out + bytes, s)
  {
    hide Find;
    var p := Find(stream, m).value;
    FindFits(stream, m);
    FoundStays(m, stream, bytes);
    CutOut(stream, bytes, p, p + |m|);
  }

  lemma FoundStays(m: seq<byte>, stream: seq<byte>, bytes: seq<byte>)
    requires Find(stream, m).Some?
    ensures Find(stream + bytes, m) == Find(stream, m)
  {
    hide At, Partial, FindFrom;
    var p := Find(stream, m).value;
    FindFits(stream, m);
    Inherit(stream, bytes, m, p);
    forall q: nat | q < p ensures !At(stream + bytes, m, q) {
      Inherit(stream, bytes, m, q);
      NotYet(stream, m, p, q);
    }
    FirstFound(stream + bytes, m, Some(p));
  }

  lemma CutOut(stream: seq<byte>, bytes: seq<byte>, i: nat, j: nat)
    requires i <= j <= |stream|
    ensures (stream + bytes)[..i] + (stream + bytes)[j..] == stream[..i] + stream[j..] + bytes
  {
    assert (stream + bytes)[..i] == stream[..i];
    assert (stream + bytes)[j..] == stream[j..] + bytes;
  }

  lemma NotYet(stream: seq<byte>, m: seq<byte>, p: nat, q: nat)
    requires p + |m| <= |stream| && q < p
    ensures !Partial(stream, m, q)
  {
  }

  lemma FeedFollows(m: seq<byte>, stream: seq<byte>, out: seq<byte>, s: Scan, bytes: seq<byte>)
    requires m != [] && Follows(m, stream, out, s)
    ensures var (s', more) := Feed(m, s, bytes); Follows(m, stream + bytes, out + more, s')
  {
    hide Follows;
    if s.seen {
      AfterFollows(m, stream, out, s, bytes);
    } else if Find(s.pending + bytes, m).Some? {
      SeenFollows(m, stream, out, s, bytes);
    } else {
      UnseenFollows(m, stream, out, s, bytes);
    }
  }

  lemma {:induction false} FeedAllFollows(m: seq<byte>, stream: seq<byte>, out: seq<byte>, s: Scan,
                                          chunks: seq<seq<byte>>)
    requires m != [] && Follows(m, stream, out, s)
    ensures var (s', more) := FeedAll(m, s, chunks); Follows(m, stream + Concat(chunks), out + more, s')
    decreases |chunks|
  {
    hide Feed, Follows;
    if chunks == [] {
      assert stream + Concat(chunks) == stream && out + [] == out;
    } else {
      var (s1, more) := Feed(m, s, chunks[0]);
      FeedFollows(m, stream, out, s, chunks[0]);
      FeedAllFollows(m, stream + chunks[0], out + more, s1, chunks[1..]);
      var rest := FeedAll(m, s1, chunks[1..]).1;
      assert stream + Concat(chunks) == stream + chunks[0] + Concat(chunks[1..]);
      assert out + (more + rest) == out + more + rest;
    }
  }

  lemma Reached(m: seq<byte>, chunks: seq<seq<byte>>)
    requires m != []
    ensures var (s, out) := FeedAll(m, IDLE, chunks); Follows(m, Concat(chunks), out, s)
  {
    FeedAllFollows(m, [], [], IDLE, chunks);
    assert [] + Concat(chunks) == Concat(chunks) && [] + FeedAll(m, IDLE, chunks).1 == FeedAll(m, IDLE, chunks).1;
  }

  /** However the stream is cut into reads: what is passed on and what is held
      back make up the stream without its first marker, completion is signalled
      exactly when the marker has appeared in full, and what is held back is
      shorter than the marker and starts like it. */
  lemma ChunkingIrrelevant(m: seq<byte>, chunks: seq<seq<byte>>)
    requires m != []
    ensures var (s, out) := FeedAll(m, IDLE, chunks);
            && out + s.pending == Strip(m, Concat(chunks))
            && (s.seen <==> Occurs(Concat(chunks), m))
            && |s.pending| < |m| && s.pending == m[..|s.pending|]
            && (s.seen ==> s.pending == [])
  {
    hide FeedAll;
    Reached(m, chunks);
    var (s, out) := FeedAll(m, IDLE, chunks);
    if s.seen {
      assert out + s.pending == out;
    } else {
      var stream := Concat(chunks);
      assert forall i :: 0 <= i < |s.pending| ==> s.pending[i] == stream[|out| + i] == m[i];
    }
  }

  /** Two ways of cutting the same stream pass on the same bytes and hold back the same. */
  lemma SameStream(m: seq<byte>, chunks: seq<seq<byte>>, chunks': seq<seq<byte>>)
    requires m != [] && Concat(chunks) == Concat(chunks')
    ensures FeedAll(m, IDLE, chunks) == FeedAll(m, IDLE, chunks')
  {
    hide FeedAll;
    Reached(m, chunks);
    Reached(m, chunks');
    Determined(m, Concat(chunks), FeedAll(m, IDLE, chunks).1, FeedAll(m, IDLE, chunks).0,
               FeedAll(m, IDLE, chunks').1, FeedAll(m, IDLE, chunks').0);
  }

  lemma Determined(m: seq<byte>, stream: seq<byte>, out: seq<byte>, s: Scan, out': seq<byte>, s': Scan)
    requires Follows(m, stream, out, s) && Follows(m, stream, out', s')
    ensures out == out' && s == s'
  {
    hide At, Partial, FindFrom;
    if !s.seen {
      assert out == stream[..|out|] && out' == stream[..|out'|];
      assert s.pending == stream[|out|..] && s'.pending == stream[|out'|..];
      assert |out| == |out'|;
    }
  }

  class ShellCompletion {
    const marker: seq<byte>
    var pending: seq<byte>
    var seen: bool
    ghost var fed: seq<byte>
    ghost var passed: seq<byte>

    /** The object has been fed `fed` and has passed on `passed`. */
    ghost predicate Valid()
      reads this
    {
      marker != [] && Follows(marker, fed, passed, Scan(pending, seen))
    }

    constructor (marker: seq<byte>)
      requires marker != []
      ensures Valid() && this.marker == marker && fed == [] && passed == [] && Scan(pending, seen) == IDLE
    {
      this.marker, pending, seen, fed, passed := marker, [], false, [], [];
      new;
      assert Follows(marker, [], [], IDLE);
    }

    method FeedBytes(bytes: seq<byte>) returns (output: seq<byte>)
      requires Valid()
      modifies this
      ensures Valid() && fed == old(fed) + bytes && passed == old(passed) + output
      ensures (Scan(pending, seen), output) == Feed(marker, old(Scan(pending, seen)), bytes)
    {
      hide Follows, Find, Tail;
      FeedFollows(marker, fed, passed, Scan(pending, seen), bytes);
      fed := fed + bytes;
      if seen {
        passed := passed + bytes;
        return bytes;
      }
      pending := pending + bytes;
      var pos := Find(pending, marker);
      if pos.Some? {
        output := pending[..pos.value];
        output := output + pending[pos.value + |marker|..];
        pending := [];
        seen := true;
      } else {
        var keep := Tail(pending, marker, |marker| - 1);
        var ready := |pending| - keep;
        output := pending[..ready];
        pending := pending[ready..];
      }
      passed := passed + output;
    }
  }
}
