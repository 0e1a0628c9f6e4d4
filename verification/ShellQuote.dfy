/** Quoting a path for the session shell: `shell_quote` in
    shiitake-worker/src/client.rs, read by the token rules of the POSIX Shell
    Command Language (sections 2.2.1, 2.2.2, 2.3 and 2.6.7). */
module ShellQuote {
  const QUOTE := '\''
  const ESCAPE := '\\'

  /** `s.replace('\'', "'\\''")` */
  function Replace(s: string): string {
    if s == "" then "" else (if s[0] == QUOTE then [QUOTE, ESCAPE, QUOTE, QUOTE] else [s[0]]) + Replace(s[1..])
  }

  function Quoted(path: string): string { [QUOTE] + Replace(path) + [QUOTE] }

  /** Characters that end an unquoted word: blanks, newline, and those that begin an operator. */
  predicate Delimits(c: char) { c in " \t\n;&|<>()" }

  /** Characters with another meaning to the shell in an unquoted word: expansions,
      other quotes, patterns, comments, braces, assignments and history. */
  predicate Special(c: char) { c in "$`\"*?[]#~=%{}!^" }

  /** Where the reader of a word stands. */
  datatype Place = Bare | Escaped | InQuotes

  /** A word after quote removal, and the input that follows it. `Meaning` is a
      word the shell would go on to interpret, `Open` one that does not end. */
  datatype Reading = Word(text: string, rest: string) | Meaning | Open

  /** Reads one word and removes its quotes. An escaped newline is a line
      continuation and leaves nothing. */
  function Read(input: string, place: Place): Reading
    decreases |input|
  {
    if input == "" then if place.Bare? then Word("", "") else Open
    else
      var c, rest := input[0], input[1..];
      match place
      case Escaped => if c == '\n' then Read(rest, Bare) else Literal(c, Read(rest, Bare))
      case InQuotes => if c == QUOTE then Read(rest, Bare) else Literal(c, Read(rest, InQuotes))
      case Bare =>
        if Delimits(c) then Word("", input)
        else if c == QUOTE then Read(rest, InQuotes)
        else if c == ESCAPE then Read(rest, Escaped)
        else if Special(c) then Meaning
        else Literal(c, Read(rest, Bare))
  }

  function Literal(c: char, r: Reading): Reading {
    if r.Word? then Word([c] + r.text, r.rest) else r
  }

  lemma Step(c: char, input: string)
    ensures ([c] + input)[0] == c && ([c] + input)[1..] == input
  {
  }

  /** A quote in the path: the quotes close, an escaped quote follows, and they open again. */
  lemma ReadQuote(more: string)
    ensures Read([QUOTE, ESCAPE, QUOTE, QUOTE] + more, InQuotes) == Literal(QUOTE, Read(more, InQuotes))
  {
    var i1 := [QUOTE] + more;
    var i2 := [QUOTE] + i1;
    var i3 := [ESCAPE] + i2;
    Step(QUOTE, more);
    assert Read(i1, Bare) == Read(more, InQuotes);
    Step(QUOTE, i1);
    assert Read(i2, Escaped) == Literal(QUOTE, Read(i1, Bare));
    Step(ESCAPE, i2);
    assert Read(i3, Bare) == Read(i2, Escaped);
    Step(QUOTE, i3);
    assert [QUOTE, ESCAPE, QUOTE, QUOTE] + more == [QUOTE] + i3;
  }

  /** Inside the quotes, the rest of the path reads back as itself up to the closing quote. */
  lemma {:induction false} ReadReplaced(path: string, rest: string)
    requires rest == "" || Delimits(rest[0])
    ensures Read(Replace(path) + ([QUOTE] + rest), InQuotes) == Word(path, rest)
  {
    var tail := [QUOTE] + rest;
    Step(QUOTE, rest);
    if path == "" {
      assert Replace(path) + tail == tail;
      assert Read(tail, InQuotes) == Read(rest, Bare) == Word("", rest);
    } else {
      var c, more := path[0], Replace(path[1..]) + tail;
      ReadReplaced(path[1..], rest);
      assert path == [c] + path[1..];
      if c == QUOTE {
        assert Replace(path) + tail == [QUOTE, ESCAPE, QUOTE, QUOTE] + more;
        ReadQuote(more);
      } else {
        assert Replace(path) + tail == [c] + more;
        Step(c, more);
      }
    }
  }

  /** Whatever the path, the shell reads its quoted form as one word that ends
      where the quoting ends, and quote removal gives the path back. */
  lemma OneWord(path: string, rest: string)
    requires rest == "" || Delimits(rest[0])
    ensures Read(Quoted(path) + rest, Bare) == Word(path, rest)
  {
    var quoted := Replace(path) + ([QUOTE] + rest);
    assert Quoted(path) + rest == [QUOTE] + quoted;
    Step(QUOTE, quoted);
    ReadReplaced(path, rest);
  }

  /** So different paths are quoted differently. */
  lemma QuotedInjective(a: string, b: string)
    requires Quoted(a) == Quoted(b)
    ensures a == b
  {
    OneWord(a, "");
    OneWord(b, "");
    assert Quoted(a) + "" == Quoted(b) + "";
  }
}
