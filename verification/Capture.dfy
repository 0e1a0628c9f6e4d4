/** Where a command's output is kept: `sanitize_id` and `handle_dir` in
    shiitake-worker-api/src/capture.rs, and the server's own test of an id,
    `valid_capture_id` in shiitake-server/src/pool/mod.rs. */
module Capture {
  import opened Bytes
  import Id = PublicId

  predicate Alphanumeric(c: char) { '0' <= c <= '9' || 'a' <= c <= 'z' || 'A' <= c <= 'Z' }

  predicate Plain(c: char) { Alphanumeric(c) || c == '-' || c == '_' }

  predicate AllPlain(s: string) { forall i :: 0 <= i < |s| ==> Plain(s[i]) }

  function SanitizeId(s: string): string {
    if s == "" then "" else (if Plain(s[0]) then [s[0]] else "") + SanitizeId(s[1..])
  }

  predicate ValidCaptureId(id: string) { id != "" && |id| <= 128 && AllPlain(id) }

  const SEPARATOR := '/'

  /** `Path::join` with a relative component. */
  function Join(root: string, name: string): string {
    if name != "" && name[0] == SEPARATOR then name
    else if root == "" || root[|root| - 1] == SEPARATOR then root + name
    else root + [SEPARATOR] + name
  }

  function HandleDir(root: string, id: string): string { Join(root, SanitizeId(id)) }

  /** Only plain characters are left, and nothing else is taken out. */
  lemma {:induction false} SanitizeFixes(s: string)
    ensures AllPlain(SanitizeId(s)) && |SanitizeId(s)| <= |s|
    ensures SanitizeId(s) == s <==> AllPlain(s)
  {
    if s != "" {
      SanitizeFixes(s[1..]);
      var rest := SanitizeId(s[1..]);
      if Plain(s[0]) {
        assert s == [s[0]] + s[1..];
        if AllPlain(s) {
          assert AllPlain(s[1..]);
        } else {
          assert !AllPlain(s[1..]);
          assert SanitizeId(s)[1..] == rest;
        }
      }
    }
  }

  lemma JoinInjective(root: string, a: string, b: string)
    requires AllPlain(a) && AllPlain(b)
    ensures Join(root, a) == Join(root, b) <==> a == b
  {
    var n := |Join(root, "")|;
    assert Join(root, a)[n..] == a && Join(root, b)[n..] == b;
  }

  /** Two ids share a directory exactly when they are the same once sanitized. */
  lemma SharedDir(root: string, a: string, b: string)
    ensures HandleDir(root, a) == HandleDir(root, b) <==> SanitizeId(a) == SanitizeId(b)
  {
    SanitizeFixes(a);
    SanitizeFixes(b);
    JoinInjective(root, SanitizeId(a), SanitizeId(b));
  }

  /** For ids the server accepts, the directory made for an id is the one opened
      by the id itself, and no two ids share one. */
  lemma OwnDir(root: string, a: string, b: string)
    requires ValidCaptureId(a) && ValidCaptureId(b)
    ensures HandleDir(root, a) == Join(root, a)
    ensures HandleDir(root, a) == HandleDir(root, b) <==> a == b
  {
    SanitizeFixes(a);
    SanitizeFixes(b);
    SharedDir(root, a, b);
  }

  /** Without that test two ids can share a directory. */
  lemma UntestedIdsCollide(root: string)
    ensures HandleDir(root, "a/b") == HandleDir(root, "ab")
  {
    assert "a/b"[1..] == "/b" && "/b"[1..] == "b" && "ab"[1..] == "b";
    assert SanitizeId("b") == "b";
    assert SanitizeId("/b") == "" + SanitizeId("b");
    assert SanitizeId("a/b") == "a" + SanitizeId("/b") == "ab";
    assert SanitizeId("ab") == "a" + SanitizeId("b");
  }

  lemma {:induction false} DigitsPlain(value: nat, n: nat)
    ensures AllPlain(Id.Digits(value, n))
  {
    if n > 0 {
      DigitsPlain(value / 32, n - 1);
      assert Alphanumeric(Id.ALPHABET[value % 32]);
    }
  }

  /** Every generated id is accepted, and ids from different random bytes never share a directory. */
  lemma GeneratedIds(root: string, kind: char, a: seq<byte>, b: seq<byte>)
    requires Alphanumeric(kind) && |a| == 10 && |b| == 10
    ensures ValidCaptureId(Id.PublicId(kind, a))
    ensures HandleDir(root, Id.PublicId(kind, a)) == Join(root, Id.PublicId(kind, a))
    ensures HandleDir(root, Id.PublicId(kind, a)) == HandleDir(root, Id.PublicId(kind, b)) <==> a == b
  {
    DigitsPlain(Id.Value(a), Id.DIGITS);
    DigitsPlain(Id.Value(b), Id.DIGITS);
    OwnDir(root, Id.PublicId(kind, a), Id.PublicId(kind, b));
    Id.Injective(kind, a, kind, b);
  }
}
