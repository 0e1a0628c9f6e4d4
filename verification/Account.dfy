/** Naming the uid a session drops into, and undoing it: `ensure` and `cleanup` in
    shiitake-worker/src/account.rs. */
module Account {
  import opened Wrappers
  import opened Passwd
  import C = Capture

  datatype DropTo = DropTo(uid: nat, gid: nat, name: Option<string>, createHome: bool)

  /** An account this worker created. */
  datatype Created = Created(name: string, uid: nat, home: Option<string>)

  /** The passwd file, and the ledger of what was appended to it. */
  datatype Accounts = Accounts(passwd: string, ledger: seq<Created>)

  predicate SafeToName(name: string, uid: nat) {
    uid != 0 && name != "" && forall i :: 0 <= i < |name| ==> name[i] !in ":\n \t"
  }

  function HomeDir(root: string, name: string): string { C.Join(root, name) }

  /** Name the uid, if it can and need be named. `provisioned` says whether the
      home directory could be set up. The home is returned either way. */
  function Ensure(root: string, a: Accounts, d: DropTo, provisioned: bool): (Accounts, Option<string>) {
    if d.name.None? || !SafeToName(d.name.value, d.uid) then (a, None)
    else
      var name := d.name.value;
      var home := if d.createHome then Some(HomeDir(root, name)) else None;
      if Has(a.passwd, name, d.uid) then (a, home)
      else (Accounts(a.passwd + Entry(name, d.uid, d.gid, if home.Some? then home.value else "/"),
                     a.ledger + [Created(name, d.uid, if provisioned then home else None)]),
            home)
  }

  function Prefixes(ledger: seq<Created>): seq<string> {
    seq(|ledger|, i requires 0 <= i < |ledger| => Prefix(ledger[i].name, ledger[i].uid))
  }

  /** Take out of the file whatever the ledger says was put there. */
  function Cleanup(a: Accounts): Accounts {
    if a.ledger == [] then a else Accounts(Without(a.passwd, Prefixes(a.ledger)), [])
  }

  datatype Call = Call(d: DropTo, provisioned: bool)

  function EnsureAll(root: string, a: Accounts, calls: seq<Call>): Accounts
    decreases |calls|
  {
    if calls == [] then a else EnsureAll(root, Ensure(root, a, calls[0].d, calls[0].provisioned).0, calls[1..])
  }

  // ------------------------------------------------- what has been appended

  /** A line appended for a ledger entry: it starts with the entry's prefix, is one
      line, and no line before it had the entry's name. */
  ghost predicate Fresh(before: string, c: Created, line: string) {
    && SafeToName(c.name, c.uid)
    && StartsWith(line, Prefix(c.name, c.uid))
    && Index(line, NL) == |line| && !Ends(line, CR)
    && (forall i :: 0 <= i < |Lines(before)| ==> FirstField(Lines(before)[i]) != c.name)
  }

  /** The file is the original text followed by one fresh line per ledger entry. */
  ghost predicate Appended(original: string, a: Accounts, lines: seq<string>) {
    && |lines| == |a.ledger|
    && a.passwd == original + Unlines(lines)
    && (forall i :: 0 <= i < |lines| ==> Fresh(original + Unlines(lines[..i]), a.ledger[i], lines[i]))
  }

  lemma {:induction false} UnlinesAppend(lines: seq<string>, line: string)
    ensures Unlines(lines + [line]) == Unlines(lines) + line + [NL]
  {
    if lines == [] {
      assert [line][1..] == [] && [] + [line] == [line];
    } else {
      assert (lines + [line])[1..] == lines[1..] + [line];
      UnlinesAppend(lines[1..], line);
    }
  }

  predicate OneLine(s: string) { Index(s, NL) == |s| }

  lemma OneLineConcat(a: string, b: string)
    requires OneLine(a) && OneLine(b)
    ensures OneLine(a + b)
  {
    IndexConcat(a, b, NL);
  }

  lemma {:induction false} DecimalOneLine(n: nat)
    ensures OneLine(Decimal(n)) && Decimal(n) != ""
  {
    if n >= 10 {
      DecimalOneLine(n / 10);
      assert OneLine(["0123456789"[n % 10]]);
      OneLineConcat(Decimal(n / 10), ["0123456789"[n % 10]]);
    }
  }

  lemma LineShape(name: string, uid: nat, gid: nat, home: string)
    requires SafeToName(name, uid) && OneLine(home)
    ensures var line := Line(name, uid, gid, home);
            StartsWith(line, Prefix(name, uid)) && OneLine(line) && !Ends(line, CR)
  {
    hide Index;
    IndexIs(name, NL, |name|);
    IndexIs(":x:", NL, 3);
    IndexIs(":", NL, 1);
    IndexIs(":shiitake session:", NL, 18);
    IndexIs(":/bin/bash", NL, 10);
    DecimalOneLine(uid);
    DecimalOneLine(gid);
    OneLineConcat(name, ":x:");
    OneLineConcat(name + ":x:", Decimal(uid));
    OneLineConcat(name + ":x:" + Decimal(uid), ":");
    var p := Prefix(name, uid);
    OneLineConcat(p, Decimal(gid));
    OneLineConcat(p + Decimal(gid), ":shiitake session:");
    OneLineConcat(p + Decimal(gid) + ":shiitake session:", home);
    OneLineConcat(p + Decimal(gid) + ":shiitake session:" + home, ":/bin/bash");
    assert Line(name, uid, gid, home)[|Line(name, uid, gid, home)| - 1] == 'h';
  }

  lemma HomeOneLine(root: string, name: string)
    requires OneLine(root) && (forall i :: 0 <= i < |name| ==> name[i] != NL)
    ensures OneLine(HomeDir(root, name))
  {
    IndexIs(name, NL, |name|);
    IndexIs("/", NL, 1);
    OneLineConcat(root, name);
    OneLineConcat(root, "/");
    OneLineConcat(root + "/", name);
  }

  lemma AppendFresh(original: string, a: Accounts, lines: seq<string>, c: Created, line: string)
    requires Appended(original, a, lines) && Fresh(a.passwd, c, line)
    ensures Appended(original, Accounts(a.passwd + (line + [NL]), a.ledger + [c]), lines + [line])
  {
    hide Fresh;
    var lines', ledger' := lines + [line], a.ledger + [c];
    UnlinesAppend(lines, line);
    assert original + (Unlines(lines) + line + [NL]) == a.passwd + (line + [NL]);
    assert lines'[..|lines|] == lines;
    forall i | 0 <= i < |lines'| ensures Fresh(original + Unlines(lines'[..i]), ledger'[i], lines'[i]) {
      if i < |lines| {
        assert lines'[..i] == lines[..i];
      }
    }
  }

  lemma NewLine(root: string, passwd: string, d: DropTo, home: string, kept: Option<string>)
    requires OneLine(root) && d.name.Some? && SafeToName(d.name.value, d.uid) && !Has(passwd, d.name.value, d.uid)
    requires home == if d.createHome then HomeDir(root, d.name.value) else "/"
    ensures Fresh(passwd, Created(d.name.value, d.uid, kept), Line(d.name.value, d.uid, d.gid, home))
  {
    hide Index, Line, HomeDir, Lines;
    var name := d.name.value;
    if d.createHome {
      HomeOneLine(root, name);
    } else {
      IndexIs("/", NL, 1);
    }
    LineShape(name, d.uid, d.gid, home);
    forall i | 0 <= i < |Lines(passwd)| ensures FirstField(Lines(passwd)[i]) != name {
      assert Lines(passwd)[i] in Lines(passwd);
    }
  }

  lemma EnsureAppends(root: string, original: string, a: Accounts, lines: seq<string>, d: DropTo, provisioned: bool)
      returns (lines': seq<string>)
    requires OneLine(root) && Appended(original, a, lines)
    ensures Appended(original, Ensure(root, a, d, provisioned).0, lines')
  {
    hide Appended, Has, Line, HomeDir, Fresh, SafeToName;
    var a' := Ensure(root, a, d, provisioned).0;
    lines' := lines;
    if a' != a {
      var name := d.name.value;
      var home := if d.createHome then HomeDir(root, name) else "/";
      var kept := if provisioned && d.createHome then Some(home) else None;
      NewLine(root, a.passwd, d, home, kept);
      AppendFresh(original, a, lines, Created(name, d.uid, kept), Line(name, d.uid, d.gid, home));
      lines' := lines + [Line(name, d.uid, d.gid, home)];
    }
  }

  lemma {:induction false} EnsureAllAppends(root: string, original: string, a: Accounts, lines: seq<string>,
                                            calls: seq<Call>)
      returns (lines': seq<string>)
    requires OneLine(root) && Appended(original, a, lines)
    ensures Appended(original, EnsureAll(root, a, calls), lines')
    decreases |calls|
  {
    hide Appended, Ensure;
    if calls == [] {
      lines' := lines;
    } else {
      var mid := EnsureAppends(root, original, a, lines, calls[0].d, calls[0].provisioned);
      lines' := EnsureAllAppends(root, original, Ensure(root, a, calls[0].d, calls[0].provisioned).0, mid, calls[1..]);
    }
  }

  // ----------------------------------------------------------------- undoing

  /** A line with a prefix of ours has the entry's name in its first field. */
  lemma PrefixName(line: string, name: string, uid: nat)
    requires SafeToName(name, uid) && StartsWith(line, Prefix(name, uid))
    ensures FirstField(line) == name
  {
    var p := Prefix(name, uid);
    assert p[|name|] == ':' && p[..|name|] == name;
    assert forall j :: 0 <= j < |name| ==> line[j] == p[j] == name[j];
    IndexIs(line, ':', |name|);
    assert line[..|name|] == name;
  }

  /** A line whose first field is none of the names is not ours. */
  lemma NotOurs(line: string, ledger: seq<Created>)
    requires forall i :: 0 <= i < |ledger| ==>
               SafeToName(ledger[i].name, ledger[i].uid) && FirstField(line) != ledger[i].name
    ensures !Ours(line, Prefixes(ledger))
  {
    forall i | 0 <= i < |ledger| ensures !StartsWith(line, Prefixes(ledger)[i]) {
      if StartsWith(line, Prefix(ledger[i].name, ledger[i].uid)) {
        PrefixName(line, ledger[i].name, ledger[i].uid);
      }
    }
  }

  /** Lines without newline or final carriage return survive being written and read. */
  lemma {:induction false} LinesUnlines(lines: seq<string>)
    requires forall i :: 0 <= i < |lines| ==> OneLine(lines[i]) && !Ends(lines[i], CR)
    ensures Lines(Unlines(lines)) == lines
  {
    hide Index;
    if lines != [] {
      var line, rest := lines[0], Unlines(lines[1..]);
      assert forall i :: 0 <= i < |lines| - 1 ==> lines[1..][i] == lines[i + 1];
      LinesUnlines(lines[1..]);
      OneMore(line, rest);
    }
  }

  lemma OneMore(line: string, rest: string)
    requires OneLine(line)
    ensures Lines(line + [NL] + rest) == [StripCr(line)] + Lines(rest)
  {
    var s := line + [NL] + rest;
    assert forall j :: 0 <= j < |line| ==> s[j] == line[j];
    IndexIs(s, NL, |line|);
    assert s[..|line|] == line && s[|line| + 1..] == rest;
  }

  /** The original lines are none of ours, and all the appended ones are. */
  lemma CleanLines(original: string, a: Accounts, lines: seq<string>)
    requires Terminated(original) && Appended(original, a, lines)
    ensures Keep(Lines(a.passwd), Prefixes(a.ledger)) == Lines(original)
  {
    hide Index;
    var prefixes := Prefixes(a.ledger);
    LinesConcat(original, Unlines(lines));
    forall i | 0 <= i < |lines| ensures OneLine(lines[i]) && !Ends(lines[i], CR) && Ours(lines[i], prefixes) {
      assert Fresh(original + Unlines(lines[..i]), a.ledger[i], lines[i]);
      assert StartsWith(lines[i], prefixes[i]);
    }
    LinesUnlines(lines);
    KeepNone(lines, prefixes);
    forall k | 0 <= k < |Lines(original)| ensures !Ours(Lines(original)[k], prefixes) {
      forall i | 0 <= i < |a.ledger|
        ensures SafeToName(a.ledger[i].name, a.ledger[i].uid) && FirstField(Lines(original)[k]) != a.ledger[i].name
      {
        OldLine(original, Unlines(lines[..i]), k);
        assert Fresh(original + Unlines(lines[..i]), a.ledger[i], lines[i]);
      }
      NotOurs(Lines(original)[k], a.ledger);
    }
    KeepAll(Lines(original), prefixes);
    KeepConcat(Lines(original), lines, prefixes);
  }

  lemma OldLine(original: string, more: string, k: nat)
    requires Terminated(original) && k < |Lines(original)|
    ensures k < |Lines(original + more)| && Lines(original + more)[k] == Lines(original)[k]
  {
    LinesConcat(original, more);
  }

  /** An original text without a final newline: the first appended line runs on
      from its last line, is not recognised, and stays. */
  lemma RunOn(original: string, a: Accounts, lines: seq<string>)
    requires !Terminated(original) && Appended(original, a, lines) && a.ledger != []
    ensures Keep(Lines(a.passwd), Prefixes(a.ledger)) != [] && Ends(a.passwd, NL)
  {
    hide Index;
    var b, last := SplitLast(original);
    var line0 := lines[0];
    assert Fresh(original + Unlines(lines[..0]), a.ledger[0], line0);
    assert lines[..0] == [] && original + Unlines([]) == original;
    var joined := last + line0;
    JoinedName(original, b, last, a.ledger[0], line0);
    forall i | 0 <= i < |a.ledger|
      ensures SafeToName(a.ledger[i].name, a.ledger[i].uid) && FirstField(joined) != a.ledger[i].name
    {
      assert Fresh(original + Unlines(lines[..i]), a.ledger[i], lines[i]);
      if i > 0 {
        assert lines[..i] == [line0] + lines[1..i];
        assert ([line0] + lines[1..i])[1..] == lines[1..i];
        JoinedLine(original, b, last, line0, Unlines(lines[1..i]));
        assert original + Unlines(lines[..i]) == original + (line0 + [NL] + Unlines(lines[1..i]));
      }
    }
    NotOurs(joined, a.ledger);
    assert lines == [line0] + lines[1..] && ([line0] + lines[1..])[1..] == lines[1..];
    JoinedLine(original, b, last, line0, Unlines(lines[1..]));
    assert a.passwd == original + (line0 + [NL] + Unlines(lines[1..]));
    KeepsSome(Lines(a.passwd), Prefixes(a.ledger), |Lines(b)|);
    UnlinesEnds(lines);
  }

  lemma {:induction false} KeepsSome(lines: seq<string>, prefixes: seq<string>, k: nat)
    requires k < |lines| && !Ours(lines[k], prefixes)
    ensures Keep(lines, prefixes) != []
  {
    if k > 0 {
      KeepsSome(lines[1..], prefixes, k - 1);
    }
  }

  /** The last, unterminated line. */
  lemma {:induction false} SplitLast(s: string) returns (b: string, last: string)
    requires !Terminated(s)
    ensures s == b + last && Terminated(b) && last != "" && OneLine(last)
    decreases |s|
  {
    var n := Index(s, NL);
    if n == |s| {
      b, last := "", s;
    } else {
      b, last := SplitLast(s[n + 1..]);
      b := s[..n + 1] + b;
    }
  }

  lemma JoinedLine(original: string, b: string, last: string, line0: string, more: string)
    requires original == b + last && Terminated(b) && OneLine(last) && last != "" && OneLine(line0) && line0 != ""
    requires !Ends(line0, CR)
    ensures var content := original + (line0 + [NL] + more);
            |Lines(b)| < |Lines(content)| && Lines(content)[|Lines(b)|] == last + line0
  {
    hide Index, Lines;
    var joined := last + line0;
    assert original + (line0 + [NL] + more) == b + (joined + [NL] + more);
    LinesConcat(b, joined + [NL] + more);
    OneLineConcat(last, line0);
    OneMore(joined, more);
    assert joined[|joined| - 1] == line0[|line0| - 1];
  }

  /** The joined line's name is not the first entry's. */
  lemma JoinedName(original: string, b: string, last: string, c: Created, line0: string)
    requires original == b + last && Terminated(b) && OneLine(last) && last != ""
    requires Fresh(original, c, line0)
    ensures FirstField(last + line0) != c.name
  {
    hide Index;
    LinesConcat(b, last);
    assert Lines(last) == [last];
    assert Lines(original)[|Lines(b)|] == last;
    PrefixName(line0, c.name, c.uid);
    IndexConcat(last, line0, ':');
    if Index(last, ':') < |last| {
      assert FirstField(last + line0) == FirstField(last);
    } else {
      assert |FirstField(last + line0)| == |last| + |c.name|;
    }
  }

  // ------------------------------------------------------------------ theorem

  /** After any calls of `ensure` on a file, cleanup gives the original text back
      exactly when nothing was appended, or the text was empty or ended in a
      newline and none of its lines ended in a carriage return. */
  lemma CleanupUndoes(root: string, original: string, calls: seq<Call>)
    requires OneLine(root)
    ensures var a := EnsureAll(root, Accounts(original, []), calls);
            && Cleanup(a).ledger == []
            && (Cleanup(a).passwd == original <==> a.ledger == [] || (Terminated(original) && !HasCrLf(original)))
  {
    hide Index, HasCrLf, EnsureAll;
    assert Unlines([]) == "" && original + "" == original;
    var lines := EnsureAllAppends(root, original, Accounts(original, []), [], calls);
    var a := EnsureAll(root, Accounts(original, []), calls);
    if a.ledger == [] {
      assert lines == [] && a.passwd == original;
    } else if Terminated(original) {
      CleanLines(original, a, lines);
      UnlinesLines(original);
      UnlinesEnds(lines);
    } else {
      RunOn(original, a, lines);
      UnlinesEnds(Keep(Lines(a.passwd), Prefixes(a.ledger)));
    }
  }

  /** The other case occurs: an entry appended to a file without a final newline
      is not taken out again. */
  lemma CleanupLoses(root: string)
    requires OneLine(root)
    ensures var a := Ensure(root, Accounts("r", []), DropTo(5, 5, Some("al"), false), false).0;
            a.ledger != [] && Cleanup(a).passwd != "r"
  {
    var d := DropTo(5, 5, Some("al"), false);
    var a := Ensure(root, Accounts("r", []), d, false).0;
    SafeName("al", 5);
    IndexIs("r", NL, 1);
    IndexIs("r", ':', 1);
    assert Lines("r") == ["r"];
    assert FirstField("r") == "r" && ThirdField("r") == None;
    assert a.ledger != [];
    var calls := [Call(d, false)];
    assert calls[1..] == [];
    assert EnsureAll(root, Accounts("r", []), calls) == a;
    CleanupUndoes(root, "r", calls);
  }

  lemma SafeName(name: string, uid: nat)
    requires uid != 0 && name == "al"
    ensures SafeToName(name, uid)
  {
  }

  // ------------------------------------------------------------- naming twice

  /** At least `n` colons. */
  predicate HasColons(s: string, n: nat)
    decreases n
  {
    n == 0 || (Index(s, ':') < |s| && HasColons(AfterField(s), n - 1))
  }

  lemma {:induction false} FewerColons(s: string, n: nat)
    requires n > 0 && HasColons(s, n)
    ensures HasColons(s, n - 1)
  {
    if n > 1 {
      FewerColons(AfterField(s), n - 1);
    }
  }

  /** Where the first field of a longer text ends. */
  lemma AfterConcat(a: string, b: string)
    ensures AfterField(a + b) == if Index(a, ':') < |a| then AfterField(a) + b else AfterField(b)
    ensures Index(a + b, ':') < |a + b| <==> Index(a, ':') < |a| || Index(b, ':') < |b|
    ensures Index(a, ':') < |a| ==> FirstField(a + b) == FirstField(a)
  {
    hide Index;
    IndexConcat(a, b, ':');
    var i, j := Index(a, ':'), Index(b, ':');
    if i < |a| {
      assert (a + b)[..i] == a[..i] && (a + b)[i + 1..] == a[i + 1..] + b;
    } else if j < |b| {
      assert (a + b)[|a| + j + 1..] == b[j + 1..];
    }
  }

  lemma {:induction false} MoreColons(a: string, b: string, n: nat)
    requires HasColons(b, n)
    ensures HasColons(a + b, n)
    decreases n, |a|
  {
    if n > 0 {
      hide Index;
      AfterConcat(a, b);
      if Index(a, ':') < |a| {
        FewerColons(b, n);
        MoreColons(AfterField(a), b, n - 1);
      }
    }
  }

  lemma ColonStep(s: string, n: nat)
    requires HasColons(s, n)
    ensures HasColons([':'] + s, n + 1)
  {
    hide Index;
    IndexIs([':'] + s, ':', 0);
    assert AfterField([':'] + s) == s;
  }

  lemma PrefixIs(name: string, uid: nat)
    ensures Prefix(name, uid) == name + ([':'] + ("x" + ([':'] + (Decimal(uid) + ([':'] + "")))))
  {
  }

  /** A prefix ends the third field of a line. */
  lemma PrefixColons(name: string, uid: nat)
    ensures HasColons(Prefix(name, uid), 3)
  {
    hide HasColons, Prefix, Decimal;
    assert HasColons("", 0) by { NoColons(); }
    ColonStep("", 0);
    MoreColons(Decimal(uid), [':'] + "", 1);
    ColonStep(Decimal(uid) + ([':'] + ""), 1);
    MoreColons("x", [':'] + (Decimal(uid) + ([':'] + "")), 2);
    ColonStep("x" + ([':'] + (Decimal(uid) + ([':'] + ""))), 2);
    MoreColons(name, [':'] + ("x" + ([':'] + (Decimal(uid) + ([':'] + "")))), 3);
    PrefixIs(name, uid);
  }

  lemma NoColons()
    ensures HasColons("", 0)
  {
  }

  /** The third field does not depend on what follows its end. */
  lemma ThirdStays(s: string, more: string)
    requires HasColons(s, 3)
    ensures ThirdField(s + more) == ThirdField(s)
  {
    hide Index;
    var s1, s2 := AfterField(s), AfterField(AfterField(s));
    assert HasColons(s1, 2) && HasColons(s2, 1);
    AfterConcat(s, more);
    AfterConcat(s1, more);
    AfterConcat(s2, more);
  }

  /** What follows the last newline. */
  function LastLine(s: string): string
    decreases |s|
  {
    if Index(s, NL) == |s| then s else LastLine(s[Index(s, NL) + 1..])
  }

  /** An entry appended right behind this text has its uid in the third field all the same. */
  predicate Absorbs(last: string, name: string, uid: nat) {
    ThirdField(last + Prefix(name, uid)) == Some(Decimal(uid))
  }

  lemma {:induction false} LastIs(b: string, last: string)
    requires Terminated(b) && OneLine(last)
    ensures LastLine(b + last) == last
    decreases |b|
  {
    hide Index;
    if b == "" {
      assert b + last == last;
    } else {
      var n := Index(b, NL);
      IndexIn(b, NL, |b| - 1);
      IndexConcat(b, last, NL);
      assert (b + last)[n + 1..] == b[n + 1..] + last;
      LastIs(b[n + 1..], last);
    }
  }

  /** Whether a text has an entry again right after one was appended to it. */
  lemma HasAfterNewline(passwd: string, name: string, uid: nat, line: string)
    requires Terminated(passwd) && SafeToName(name, uid) && StartsWith(line, Prefix(name, uid)) && OneLine(line)
    requires !Ends(line, CR)
    ensures Has(passwd + (line + [NL]), name, uid)
  {
    hide Index, ThirdField, Prefix;
    OneMore(line, "");
    assert line + [NL] + "" == line + [NL];
    LinesConcat(passwd, line + [NL]);
    PrefixName(line, name, uid);
    var lines := Lines(passwd + (line + [NL]));
    assert Lines("") == [];
    assert lines[|Lines(passwd)|] == line;
    assert line in lines;
  }

  lemma HasAfterRun(passwd: string, c: Created, line: string)
    requires !Terminated(passwd) && Fresh(passwd, c, line) && line != "" && !Has(passwd, c.name, c.uid)
    ensures Has(passwd + (line + [NL]), c.name, c.uid)
            <==> ThirdField(LastLine(passwd) + line) == Some(Decimal(c.uid))
  {
    hide Index, ThirdField, Prefix, FirstField;
    var b, last := SplitLast(passwd);
    LastIs(b, last);
    JoinedOnce(passwd, b, last, line);
    JoinedName(passwd, b, last, c, line);
    LinesConcat(b, last);
    var lines := Lines(passwd + (line + [NL]));
    assert forall l :: l in lines <==> l in Lines(b) || l == last + line;
    assert forall l :: l in Lines(b) ==> l in Lines(passwd);
  }

  lemma HasAppended(passwd: string, d: DropTo, home: string, kept: Option<string>)
    requires d.name.Some? && Fresh(passwd, Created(d.name.value, d.uid, kept), Line(d.name.value, d.uid, d.gid, home))
    requires !Has(passwd, d.name.value, d.uid)
    ensures Has(passwd + Entry(d.name.value, d.uid, d.gid, home), d.name.value, d.uid)
            <==> Terminated(passwd) || Absorbs(LastLine(passwd), d.name.value, d.uid)
  {
    hide Index, ThirdField, Has, LastLine, Terminated, HasColons;
    var name, line := d.name.value, Line(d.name.value, d.uid, d.gid, home);
    if Terminated(passwd) {
      HasAfterNewline(passwd, name, d.uid, line);
    } else {
      var last, prefix := LastLine(passwd), Prefix(name, d.uid);
      HasAfterRun(passwd, Created(name, d.uid, kept), line);
      PrefixColons(name, d.uid);
      MoreColons(last, prefix, 3);
      ThirdStays(last + prefix, line[|prefix|..]);
      assert last + prefix + line[|prefix|..] == last + line;
    }
  }

  lemma JoinedOnce(passwd: string, b: string, last: string, line: string)
    requires passwd == b + last && Terminated(b) && OneLine(last) && OneLine(line) && line != "" && !Ends(line, CR)
    ensures Lines(passwd + (line + [NL])) == Lines(b) + [last + line]
  {
    hide Index;
    var joined := last + line;
    assert passwd + (line + [NL]) == b + (joined + [NL] + "");
    LinesConcat(b, joined + [NL] + "");
    OneLineConcat(last, line);
    OneMore(joined, "");
    assert joined[|joined| - 1] == line[|line| - 1];
  }

  /** Naming an account a second time changes nothing if and only if the first time
      changed nothing, or the file was empty or ended in a newline, or its last
      line leaves the new entry's uid in the third field. */
  lemma EnsureTwice(root: string, a: Accounts, d: DropTo, provisioned: bool, again: bool)
    requires OneLine(root)
    ensures var (a', home) := Ensure(root, a, d, provisioned);
            Ensure(root, a', d, again) == (a', home)
            <==> a' == a || Terminated(a.passwd) || (d.name.Some? && Absorbs(LastLine(a.passwd), d.name.value, d.uid))
  {
    hide Index, HomeDir, Has, Absorbs, Terminated, Line, SafeToName;
    var (a', home) := Ensure(root, a, d, provisioned);
    if a' != a {
      var dir := if home.Some? then home.value else "/";
      NewLine(root, a.passwd, d, dir, None);
      HasAppended(a.passwd, d, dir, None);
      assert a'.passwd == a.passwd + Entry(d.name.value, d.uid, d.gid, dir);
      var a'' := Ensure(root, a', d, again).0;
      assert !Has(a'.passwd, d.name.value, d.uid) ==> |a''.ledger| == |a'.ledger| + 1;
    }
  }

  /** A last line with three colons or more does not: here the second call appends a second entry. */
  lemma NamedTwice(root: string)
    requires OneLine(root)
    ensures var d := DropTo(5, 5, Some("al"), false);
            var a := Ensure(root, Accounts("a:b:c:d", []), d, false).0;
            |a.ledger| == 1 && |Ensure(root, a, d, false).0.ledger| == 2
  {
    var d, passwd := DropTo(5, 5, Some("al"), false), "a:b:c:d";
    var a := Ensure(root, Accounts(passwd, []), d, false).0;
    FourFields();
    hide Has, Absorbs, Terminated, LastLine, Entry, Index, SafeToName;
    SafeName("al", 5);
    assert a.passwd == passwd + Entry("al", 5, 5, "/") && |a.ledger| == 1;
    EnsureTwice(root, Accounts(passwd, []), d, false, false);
  }

  /** A line without newline, whose third field stays what it is. */
  lemma FourFields()
    ensures var passwd := "a:b:c:d";
            !Has(passwd, "al", 5) && !Terminated(passwd) && !Absorbs(LastLine(passwd), "al", 5)
  {
    hide Index, HasColons, AfterField;
    var passwd := "a:b:c:d";
    IndexIs(passwd, NL, 7);
    Fields();
    assert Lines(passwd) == [passwd] && LastLine(passwd) == passwd;
    assert Decimal(5) == "5";
    ThirdStays(passwd, Prefix("al", 5));
  }

  lemma Fields()
    ensures FirstField("a:b:c:d") == "a" && ThirdField("a:b:c:d") == Some("c") && HasColons("a:b:c:d", 3)
  {
    hide Index;
    IndexIs("a:b:c:d", ':', 1);
    assert AfterField("a:b:c:d") == "b:c:d" && FirstField("a:b:c:d") == "a:b:c:d"[..1] == "a";
    IndexIs("b:c:d", ':', 1);
    assert AfterField("b:c:d") == "c:d";
    IndexIs("c:d", ':', 1);
    assert FirstField("c:d") == "c:d"[..1] == "c";
    assert HasColons("c:d", 1) && HasColons("b:c:d", 2);
  }

  // -------------------------------------------------------- what is written

  /** A name that must not be written, or a uid that must not be named. */
  predicate Unsafe(name: string, uid: nat) {
    || uid == 0 || name == ""
    || exists i :: 0 <= i < |name| && (name[i] == ':' || name[i] == '\n' || name[i] == ' ' || name[i] == '\t')
  }

  /** Some line's first field is the name, or its third the uid. */
  ghost predicate Taken(passwd: string, name: string, uid: nat) {
    exists line :: line in Lines(passwd) && (FirstField(line) == name || ThirdField(line) == Some(Decimal(uid)))
  }

  /** An account is named exactly if it has a safe name and neither its name nor
      its uid is in the file. Then one line is appended, with the account's name,
      uid and gid and, as its home, the one returned to the session, or "/". */
  lemma EnsureWrites(root: string, a: Accounts, d: DropTo, provisioned: bool)
    ensures var (a', home) := Ensure(root, a, d, provisioned);
            && (a' == a <==> d.name.None? || Unsafe(d.name.value, d.uid) || Taken(a.passwd, d.name.value, d.uid))
            && home == (if d.createHome && d.name.Some? && !Unsafe(d.name.value, d.uid)
                        then Some(C.Join(root, d.name.value)) else None)
            && (a' != a ==>
                  exists line ::
                    && a'.passwd == a.passwd + line + [NL]
                    && Split(line) == [d.name.value, "x", Decimal(d.uid), Decimal(d.gid), "shiitake session"]
                                      + Split(if home.Some? then home.value else "/") + ["/bin/bash"])
  {
    hide Split, Lines, Index, Decimal, FirstField, ThirdField;
    var (a', home) := Ensure(root, a, d, provisioned);
    if d.name.Some? && SafeToName(d.name.value, d.uid) && !Has(a.passwd, d.name.value, d.uid) {
      var name := d.name.value;
      var at := if home.Some? then home.value else "/";
      var line := Line(name, d.uid, d.gid, at);
      LineFields(name, d.uid, d.gid, at);
      PlainField(name);
      assert a'.passwd == a.passwd + line + [NL];
      assert |a'.ledger| == |a.ledger| + 1;
    }
  }

  // ---------------------------------------------------------------- the object

  class AccountFile {
    const homeRoot: string
    var passwd: string
    var ledger: seq<Created>

    ghost function View(): Accounts
      reads this
    {
      Accounts(passwd, ledger)
    }

    constructor (homeRoot: string, passwd: string)
      ensures View() == Accounts(passwd, []) && this.homeRoot == homeRoot
    {
      this.homeRoot, this.passwd, ledger := homeRoot, passwd, [];
    }

    method EnsureNamed(d: DropTo, provisioned: bool) returns (home: Option<string>)
      modifies this
      ensures (View(), home) == Ensure(homeRoot, old(View()), d, provisioned)
    {
      if d.name.None? { return None; }
      var name := d.name.value;
      if !SafeToName(name, d.uid) { return None; }
      home := if d.createHome then Some(HomeDir(homeRoot, name)) else None;
      if Has(passwd, name, d.uid) { return; }
      var entry := Entry(name, d.uid, d.gid, if home.Some? then home.value else "/");
      passwd := passwd + entry;
      ledger := ledger + [Created(name, d.uid, if provisioned then home else None)];
    }

    method CleanUp() returns (drained: seq<Created>)
      modifies this
      ensures View() == Cleanup(old(View())) && drained == old(ledger)
    {
      drained := ledger;
      ledger := [];
      if drained == [] { return; }
      passwd := PasswdWithout(passwd, Prefixes(drained));
    }
  }
}
