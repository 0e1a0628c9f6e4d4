/** Reading the shell state a finished stateful command left: `read_shell_state` in
    shiitake-worker/src/client.rs. The environment file holds `name=value` entries,
    each ended by a NUL byte. */
module ShellState {
  import opened Wrappers
  import opened Bytes
  import Utf8

  type Text = seq<Utf8.Scalar>

  const EQUALS: int := 61

  datatype Entry = Entry(name: Text, value: Text)

  /** Bytes up to the first NUL. */
  function Head(s: seq<byte>): (h: seq<byte>)
    ensures h <= s && (forall i :: 0 <= i < |h| ==> h[i] != 0)
    ensures |h| < |s| ==> s[|h|] == 0
  {
    if s == [] || s[0] == 0 then [] else [s[0]] + Head(s[1..])
  }

  /** The non-empty parts between NUL bytes. */
  function Parts(s: seq<byte>): seq<seq<byte>>
    decreases |s|
  {
    var h := Head(s);
    (if h == [] then [] else [h]) + (if |h| == |s| then [] else Parts(s[|h| + 1..]))
  }

  /** `split_once('=')` */
  function SplitOnce(text: Text): (r: Option<Entry>)
    ensures r.Some? ==> text == r.value.name + [EQUALS] + r.value.value && EQUALS !in r.value.name
    ensures r.None? ==> EQUALS !in text
  {
    if text == [] then None
    else if text[0] == EQUALS then Some(Entry([], text[1..]))
    else
      var rest := SplitOnce(text[1..]);
      if rest.None? then None else Some(Entry([text[0]] + rest.value.name, rest.value.value))
  }

  /** Later entries win; text without an equals sign is passed over; text that is not UTF-8 is an error. */
  function Insert(env: map<Text, Text>, part: seq<byte>): Option<map<Text, Text>> {
    var text := Utf8.Decode(part);
    if text.None? then None
    else
      var entry := SplitOnce(text.value);
      if entry.None? then Some(env) else Some(env[entry.value.name := entry.value.value])
  }

  function InsertAll(env: map<Text, Text>, parts: seq<seq<byte>>): Option<map<Text, Text>>
    decreases |parts|
  {
    if parts == [] then Some(env)
    else
      var next := Insert(env, parts[0]);
      if next.None? then None else InsertAll(next.value, parts[1..])
  }

  /** The loop over the entries, after the directory has been read. */
  method ReadShellState(cwd: seq<byte>, bytes: seq<byte>) returns (r: Option<(Text, map<Text, Text>)>)
    ensures r.Some? <==> Utf8.Decode(cwd).Some? && InsertAll(map[], Parts(bytes)).Some?
    ensures r.Some? ==> r.value == (Utf8.Decode(cwd).value, InsertAll(map[], Parts(bytes)).value)
  {
    var dir := Utf8.Decode(cwd);
    if dir.None? { return None; }
    var env: map<Text, Text>, parts, i := map[], Parts(bytes), 0;
    assert parts[0..] == parts;
    while i < |parts|
      invariant i <= |parts|
      invariant InsertAll(env, parts[i..]) == InsertAll(map[], parts)
    {
      assert parts[i..][1..] == parts[i + 1..];
      var text := Utf8.Decode(parts[i]);
      if text.None? { return None; }
      var entry := SplitOnce(text.value);
      if entry.Some? {
        env := env[entry.value.name := entry.value.value];
      }
      i := i + 1;
    }
    r := Some((dir.value, env));
  }

  // ---------------------------------------------------------------- round trip

  /** A variable the shell can export: no NUL anywhere, no equals sign in the name. */
  predicate Exportable(e: Entry) { 0 !in e.name && 0 !in e.value && EQUALS !in e.name }

  /** What the shell writes for its exported variables. */
  function Written(entries: seq<Entry>): seq<byte> {
    if entries == [] then []
    else Utf8.Encode(entries[0].name + [EQUALS] + entries[0].value) + [0] + Written(entries[1..])
  }

  function Environment(env: map<Text, Text>, entries: seq<Entry>): map<Text, Text>
    decreases |entries|
  {
    if entries == [] then env else Environment(env[entries[0].name := entries[0].value], entries[1..])
  }

  lemma HeadIs(part: seq<byte>, rest: seq<byte>)
    requires 0 !in part
    ensures Head(part + [0] + rest) == part
  {
    var s := part + [0] + rest;
    var h := Head(s);
    assert forall j :: 0 <= j < |part| ==> s[j] == part[j] && part[j] in part;
    assert s[|part|] == 0;
    assert !(|h| < |part|);
    assert !(|part| < |h|) by { assert forall j :: 0 <= j < |h| ==> h[j] == s[j]; }
    assert h == s[..|h|] && part == s[..|part|];
  }

  lemma PartsOf(part: seq<byte>, rest: seq<byte>)
    requires 0 !in part && part != []
    ensures Parts(part + [0] + rest) == [part] + Parts(rest)
  {
    HeadIs(part, rest);
    assert (part + [0] + rest)[|part| + 1..] == rest;
  }

  lemma {:induction false} NoNul(text: Text)
    requires 0 !in text
    ensures 0 !in Utf8.Encode(text) && (text != [] ==> Utf8.Encode(text) != [])
  {
    if text != [] {
      assert text[0] in text;
      forall c | c in text[1..] ensures c in text {
      }
      NoNul(text[1..]);
      assert 0 !in Utf8.Encode1(text[0]);
    }
  }

  /** The first equals sign splits an entry, whatever the value holds. */
  lemma {:induction false} SplitIs(name: Text, value: Text)
    requires EQUALS !in name
    ensures SplitOnce(name + [EQUALS] + value) == Some(Entry(name, value))
  {
    var text := name + [EQUALS] + value;
    if name == [] {
      assert text[1..] == value;
    } else {
      assert name[0] in name && text[0] == name[0];
      assert text[1..] == name[1..] + [EQUALS] + value;
      SplitIs(name[1..], value);
      assert name == [name[0]] + name[1..];
    }
  }

  lemma InsertWritten(env: map<Text, Text>, e: Entry)
    requires Exportable(e)
    ensures var part := Utf8.Encode(e.name + [EQUALS] + e.value);
            && 0 !in part && part != []
            && Insert(env, part) == Some(env[e.name := e.value])
  {
    var text := e.name + [EQUALS] + e.value;
    NoNul(text);
    Utf8.DecodeEncode(text);
    SplitIs(e.name, e.value);
  }

  lemma {:induction false} ReadEntries(env: map<Text, Text>, entries: seq<Entry>)
    requires forall i :: 0 <= i < |entries| ==> Exportable(entries[i])
    ensures InsertAll(env, Parts(Written(entries))) == Some(Environment(env, entries))
    decreases |entries|
  {
    hide Insert, Exportable;
    if entries != [] {
      var e := entries[0];
      var part := Utf8.Encode(e.name + [EQUALS] + e.value);
      InsertWritten(env, e);
      PartsOf(part, Written(entries[1..]));
      assert ([part] + Parts(Written(entries[1..])))[1..] == Parts(Written(entries[1..]));
      ReadEntries(env[e.name := e.value], entries[1..]);
    }
  }

  /** Every directory and every list of exported variables is read back as it was
      written: equals signs and newlines in values included, the last of two
      entries for one name winning. */
  lemma SnapshotRoundTrip(cwd: Text, entries: seq<Entry>)
    requires forall i :: 0 <= i < |entries| ==> Exportable(entries[i])
    ensures Utf8.Decode(Utf8.Encode(cwd)) == Some(cwd)
    ensures InsertAll(map[], Parts(Written(entries))) == Some(Environment(map[], entries))
  {
    Utf8.DecodeEncode(cwd);
    ReadEntries(map[], entries);
  }

  /** Reading fails exactly when some entry is not UTF-8. */
  lemma {:induction false} ReadFails(env: map<Text, Text>, parts: seq<seq<byte>>)
    ensures InsertAll(env, parts).None? <==> exists i :: 0 <= i < |parts| && Utf8.Decode(parts[i]).None?
    decreases |parts|
  {
    if parts != [] {
      assert forall i :: 0 <= i < |parts| - 1 ==> parts[1..][i] == parts[i + 1];
      if Utf8.Decode(parts[0]).Some? {
        ReadFails(Insert(env, parts[0]).value, parts[1..]);
        if i :| 0 <= i < |parts| && Utf8.Decode(parts[i]).None? {
          assert Utf8.Decode(parts[1..][i - 1]).None?;
        }
      }
    }
  }
}
