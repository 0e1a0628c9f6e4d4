/** The passwd text: `passwd_entry`, `passwd_has` and `passwd_without` in
    shiitake-worker/src/account.rs, and Rust's `lines` and `split` under them. */
module Passwd {
  import opened Wrappers

  const NL := '\n'
  const CR := '\r'

  /** Position of a character, or the text's length. */
  function Index(s: string, c: char): (i: nat)
    ensures i <= |s|
    ensures forall j :: 0 <= j < i ==> s[j] != c
    ensures i < |s| ==> s[i] == c
  {
    if s == "" || s[0] == c then 0
    else
      var i := Index(s[1..], c);
      assert forall j :: 1 <= j < i + 1 ==> s[j] == s[1..][j - 1];
      i + 1
  }

  /** A line loses its newline, and then one carriage return. */
  function StripCr(line: string): string {
    if line != "" && line[|line| - 1] == CR then line[..|line| - 1] else line
  }

  /** `str::lines` */
  function Lines(s: string): seq<string>
    decreases |s|
  {
    var n := Index(s, NL);
    if s == "" then [] else if n == |s| then [s] else [StripCr(s[..n])] + Lines(s[n + 1..])
  }

  /** Each line with a newline after it. */
  function Unlines(lines: seq<string>): string {
    if lines == [] then "" else lines[0] + [NL] + Unlines(lines[1..])
  }

  function FirstField(line: string): string { line[..Index(line, ':')] }

  /** What follows the first colon, or nothing. */
  function AfterField(line: string): string {
    if Index(line, ':') == |line| then "" else line[Index(line, ':') + 1..]
  }

  function ThirdField(line: string): Option<string> {
    if Index(line, ':') == |line| || Index(AfterField(line), ':') == |AfterField(line)| then None
    else Some(FirstField(AfterField(AfterField(line))))
  }

  function Decimal(n: nat): string {
    if n < 10 then ["0123456789"[n]] else Decimal(n / 10) + ["0123456789"[n % 10]]
  }

  /** The prefix by which cleanup knows an entry. */
  function Prefix(name: string, uid: nat): string { name + ":x:" + Decimal(uid) + ":" }

  function Line(name: string, uid: nat, gid: nat, home: string): string {
    Prefix(name, uid) + Decimal(gid) + ":shiitake session:" + home + ":/bin/bash"
  }

  function Entry(name: string, uid: nat, gid: nat, home: string): string { Line(name, uid, gid, home) + [NL] }

  /** Some line has this name or this uid. */
  predicate Has(content: string, name: string, uid: nat) {
    exists line | line in Lines(content) :: FirstField(line) == name || ThirdField(line) == Some(Decimal(uid))
  }

  predicate StartsWith(line: string, prefix: string) { prefix <= line }

  predicate Ours(line: string, prefixes: seq<string>) {
    exists i :: 0 <= i < |prefixes| && StartsWith(line, prefixes[i])
  }

  /** The lines that are not ours. */
  function Keep(lines: seq<string>, prefixes: seq<string>): seq<string> {
    if lines == [] then []
    else (if Ours(lines[0], prefixes) then [] else [lines[0]]) + Keep(lines[1..], prefixes)
  }

  predicate Ends(s: string, c: char) { s != "" && s[|s| - 1] == c }

  function Pop(s: string): string { if s == "" then s else s[..|s| - 1] }

  /** The text without our lines; a last line without newline stays without. */
  function Without(content: string, prefixes: seq<string>): string {
    var kept := Unlines(Keep(Lines(content), prefixes));
    if Ends(content, NL) then kept else Pop(kept)
  }

  /** The loop over the lines. */
  method PasswdWithout(content: string, prefixes: seq<string>) returns (kept: string)
    ensures kept == Without(content, prefixes)
  {
    kept := "";
    var lines := Lines(content);
    var i := 0;
    assert lines[0..] == lines;
    while i < |lines|
      invariant i <= |lines|
      invariant kept + Unlines(Keep(lines[i..], prefixes)) == Unlines(Keep(lines, prefixes))
    {
      var line := lines[i];
      ghost var rest := Keep(lines[i + 1..], prefixes);
      assert lines[i..][1..] == lines[i + 1..];
      assert Keep(lines[i..], prefixes) == if Ours(line, prefixes) then rest else [line] + rest;
      i := i + 1;
      if Ours(line, prefixes) { continue; }
      assert ([line] + rest)[1..] == rest;
      assert kept + Unlines([line] + rest) == kept + line + [NL] + Unlines(rest);
      kept := kept + line;
      kept := kept + [NL];
    }
    assert kept + "" == kept;
    if !Ends(content, NL) {
      kept := Pop(kept);
    }
  }

  // ------------------------------------------------------------- text lemmas

  predicate Terminated(s: string) { s == "" || Ends(s, NL) }

  ghost predicate HasCrLf(s: string) { exists i :: 0 <= i < |s| - 1 && s[i] == CR && s[i + 1] == NL }

  /** The first position of a character is the only one before which it does not occur. */
  lemma IndexIs(s: string, c: char, k: nat)
    requires k <= |s| && (forall j :: 0 <= j < k ==> s[j] != c) && (k < |s| ==> s[k] == c)
    ensures Index(s, c) == k
  {
    var i := Index(s, c);
    assert !(i < k) && !(k < i);
  }

  lemma IndexConcat(a: string, b: string, c: char)
    ensures Index(a + b, c) == if Index(a, c) < |a| then Index(a, c) else |a| + Index(b, c)
  {
    hide Index;
    var k := if Index(a, c) < |a| then Index(a, c) else |a| + Index(b, c);
    forall j | 0 <= j < k ensures (a + b)[j] != c {
      assert (a + b)[j] == if j < |a| then a[j] else b[j - |a|];
    }
    IndexIs(a + b, c, k);
  }

  lemma IndexIn(s: string, c: char, j: nat)
    requires j < |s| && s[j] == c
    ensures Index(s, c) <= j
  {
  }

  /** Lines of a text after a terminated one. */
  lemma {:induction false} LinesConcat(a: string, b: string)
    requires Terminated(a)
    ensures Lines(a + b) == Lines(a) + Lines(b)
    decreases |a|
  {
    if a == "" {
      assert a + b == b;
    } else {
      var n := Index(a, NL);
      IndexIn(a, NL, |a| - 1);
      IndexConcat(a, b, NL);
      assert (a + b)[..n] == a[..n] && (a + b)[n + 1..] == a[n + 1..] + b;
      assert Terminated(a[n + 1..]);
      LinesConcat(a[n + 1..], b);
    }
  }

  lemma {:induction false} KeepConcat(a: seq<string>, b: seq<string>, prefixes: seq<string>)
    ensures Keep(a + b, prefixes) == Keep(a, prefixes) + Keep(b, prefixes)
  {
    if a == [] {
      assert a + b == b;
    } else {
      assert (a + b)[1..] == a[1..] + b;
      KeepConcat(a[1..], b, prefixes);
    }
  }

  lemma {:induction false} KeepAll(lines: seq<string>, prefixes: seq<string>)
    requires forall i :: 0 <= i < |lines| ==> !Ours(lines[i], prefixes)
    ensures Keep(lines, prefixes) == lines
  {
    if lines != [] {
      assert forall i :: 0 <= i < |lines| - 1 ==> lines[1..][i] == lines[i + 1];
      KeepAll(lines[1..], prefixes);
    }
  }

  lemma {:induction false} KeepNone(lines: seq<string>, prefixes: seq<string>)
    requires forall i :: 0 <= i < |lines| ==> Ours(lines[i], prefixes)
    ensures Keep(lines, prefixes) == []
  {
    if lines != [] {
      assert forall i :: 0 <= i < |lines| - 1 ==> lines[1..][i] == lines[i + 1];
      KeepNone(lines[1..], prefixes);
    }
  }

  lemma HasCrLfConcat(a: string, b: string)
    requires Ends(a, NL)
    ensures HasCrLf(a + b) <==> HasCrLf(a) || HasCrLf(b)
  {
    assert forall j :: 0 <= j < |a| ==> (a + b)[j] == a[j];
    assert forall j :: 0 <= j < |b| ==> (a + b)[|a| + j] == b[j];
    if HasCrLf(a + b) {
      var i :| 0 <= i < |a + b| - 1 && (a + b)[i] == CR && (a + b)[i + 1] == NL;
      if i < |a| - 1 {
        assert a[i] == CR && a[i + 1] == NL;
      } else {
        assert i != |a| - 1;
        assert b[i - |a|] == CR && b[i - |a| + 1] == NL;
      }
    }
    if HasCrLf(a) {
      var i :| 0 <= i < |a| - 1 && a[i] == CR && a[i + 1] == NL;
      assert (a + b)[i] == CR && (a + b)[i + 1] == NL;
    }
    if HasCrLf(b) {
      var i :| 0 <= i < |b| - 1 && b[i] == CR && b[i + 1] == NL;
      assert (a + b)[|a| + i] == CR && (a + b)[|a| + i + 1] == NL;
    }
  }

  /** One line, taken off and put back. */
  lemma LineBack(line: string)
    requires Index(line, NL) == |line|
    ensures HasCrLf(line + [NL]) <==> Ends(line, CR)
    ensures StripCr(line) == line <==> !Ends(line, CR)
    ensures |StripCr(line)| == if Ends(line, CR) then |line| - 1 else |line|
  {
    hide Index;
    var s := line + [NL];
    if Ends(line, CR) {
      assert s[|line| - 1] == CR && s[|line| - 1 + 1] == NL;
    }
    forall j | 0 <= j < |s| && s[j] == NL ensures j == |line| {
    }
  }

  /** Taking a terminated text apart into lines and putting it together again
      changes nothing exactly when no line ends in a carriage return. */
  lemma {:induction false} UnlinesLines(s: string)
    requires Terminated(s)
    ensures |Unlines(Lines(s))| <= |s|
    ensures Unlines(Lines(s)) == s <==> !HasCrLf(s)
    ensures HasCrLf(s) ==> |Unlines(Lines(s))| < |s|
    decreases |s|
  {
    hide HasCrLf, Index, StripCr;
    if s == "" {
      assert !HasCrLf(s) by { NoCrLf(s); }
    } else {
      var n := Index(s, NL);
      IndexIn(s, NL, |s| - 1);
      var line, rest := s[..n], s[n + 1..];
      IndexIs(line, NL, n);
      assert s == line + [NL] + rest && Terminated(rest);
      UnlinesLines(rest);
      HasCrLfConcat(line + [NL], rest);
      LineBack(line);
      var back := Unlines(Lines(rest));
      assert Unlines([StripCr(line)] + Lines(rest)) == StripCr(line) + [NL] + back by {
        assert ([StripCr(line)] + Lines(rest))[1..] == Lines(rest);
      }
      assert Unlines(Lines(s)) == StripCr(line) + [NL] + back;
      if !HasCrLf(s) {
        assert Unlines(Lines(s)) == s;
      }
    }
  }

  lemma NoCrLf(s: string)
    requires |s| < 2
    ensures !HasCrLf(s)
  {
  }

  lemma {:induction false} UnlinesEnds(lines: seq<string>)
    ensures Terminated(Unlines(lines)) && (lines != [] ==> Unlines(lines) != "")
  {
    if lines != [] {
      UnlinesEnds(lines[1..]);
    }
  }

  // ------------------------------------------------------------ what a line says

  /** The colon-separated fields of a line. */
  function Split(line: string): seq<string>
    decreases |line|
  {
    if Index(line, ':') == |line| then [line] else [FirstField(line)] + Split(AfterField(line))
  }

  lemma {:induction false} SplitConcat(a: string, b: string)
    ensures Split(a + ":" + b) == Split(a) + Split(b)
    decreases |a|
  {
    hide Index;
    var i, s := Index(a, ':'), a + ":" + b;
    assert s == a + (":" + b);
    IndexConcat(a, ":" + b, ':');
    IndexIs(":" + b, ':', 0);
    if i == |a| {
      assert FirstField(s) == a && AfterField(s) == b;
    } else {
      assert FirstField(s) == FirstField(a) && AfterField(s) == AfterField(a) + ":" + b;
      SplitConcat(AfterField(a), b);
      assert [FirstField(a)] + (Split(AfterField(a)) + Split(b)) == [FirstField(a)] + Split(AfterField(a)) + Split(b);
    }
  }

  lemma PlainField(s: string)
    requires forall i :: 0 <= i < |s| ==> s[i] != ':'
    ensures Split(s) == [s]
  {
  }

  /** The number a string of digits reads as. */
  function Reading(s: string): int {
    if s == "" then 0 else 10 * Reading(s[..|s| - 1]) + (s[|s| - 1] as int - '0' as int)
  }

  /** Numbers are written in decimal, without leading zeros. */
  lemma {:induction false} DecimalReads(n: nat)
    ensures var s := Decimal(n);
            && Reading(s) == n && s != "" && (s[0] == '0' ==> n == 0)
            && (forall i :: 0 <= i < |s| ==> '0' <= s[i] <= '9')
  {
    var d := ["0123456789"[n % 10]];
    assert d[0] as int == '0' as int + n % 10;
    if n >= 10 {
      DecimalReads(n / 10);
      assert Decimal(n)[..|Decimal(n)| - 1] == Decimal(n / 10);
    } else {
      assert Decimal(n) == d && d[..0] == "";
    }
  }

  /** An entry's fields: the name, no password, uid, gid, comment, home and shell. */
  lemma LineFields(name: string, uid: nat, gid: nat, home: string)
    ensures Split(Line(name, uid, gid, home))
            == Split(name) + ["x", Decimal(uid), Decimal(gid), "shiitake session"] + Split(home) + ["/bin/bash"]
  {
    hide Split, Index, Decimal;
    DecimalReads(uid);
    DecimalReads(gid);
    PlainField(Decimal(uid));
    PlainField(Decimal(gid));
    PlainField("x");
    PlainField("shiitake session");
    PlainField("/bin/bash");
    SplitConcat(home, "/bin/bash");
    var end := home + ":" + "/bin/bash";
    SplitConcat("shiitake session", end);
    SplitConcat(Decimal(gid), "shiitake session" + ":" + end);
    var ids := Decimal(gid) + ":" + ("shiitake session" + ":" + end);
    SplitConcat(Decimal(uid), ids);
    SplitConcat("x", Decimal(uid) + ":" + ids);
    SplitConcat(name, "x" + ":" + (Decimal(uid) + ":" + ids));
    LineParts(name, Decimal(uid), Decimal(gid), home);
  }

  lemma LineParts(name: string, uid: string, gid: string, home: string)
    ensures name + ":x:" + uid + ":" + gid + ":shiitake session:" + home + ":/bin/bash"
            == name + ":" + ("x" + ":" + (uid + ":" + (gid + ":" + ("shiitake session" + ":"
                                                                    + (home + ":" + "/bin/bash")))))
  {
    assert ":x:" == ":" + "x" + ":" && ":shiitake session:" == ":" + "shiitake session" + ":";
    assert ":/bin/bash" == ":" + "/bin/bash";
  }
}
