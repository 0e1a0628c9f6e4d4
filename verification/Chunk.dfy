/** The binary output frames of the dispatch socket: `OutputChunk` in
    shiitake-worker-api/src/lib.rs. */
module Chunk {
  import opened Wrappers
  import opened Bytes
  import Utf8

  datatype OutputStream = Stdout | Stderr | Terminal | Stdin

  datatype OutputChunk = OutputChunk(stream: OutputStream, id: seq<Utf8.Scalar>, bytes: seq<byte>)

  datatype DecodeError = ShortHeader | UnknownStream | ShortId | InvalidId

  function Number(stream: OutputStream): byte {
    match stream
    case Stdout => 0
    case Stderr => 1
    case Terminal => 2
    case Stdin => 3
  }

  function TryFrom(value: byte): (r: Result<OutputStream, DecodeError>)
    ensures r.Ok? <==> exists stream :: Number(stream) == value
    ensures forall stream :: Number(stream) == value ==> r == Ok(stream)
  {
    assert forall stream :: Number(stream) <= 3;
    assert Number(Stdout) == 0 && Number(Stderr) == 1 && Number(Terminal) == 2 && Number(Stdin) == 3;
    if value == 0 then Ok(Stdout)
    else if value == 1 then Ok(Stderr)
    else if value == 2 then Ok(Terminal)
    else if value == 3 then Ok(Stdin)
    else Err(UnknownStream)
  }

  /** The id's length fits in the header. */
  predicate Fits(c: OutputChunk) { |Utf8.Encode(c.id)| <= 0xFFFF }

  function Header(n: int): (h: seq<byte>)
    requires 0 <= n <= 0xFFFF
    ensures |h| == 2 && h[0] as int * 256 + h[1] as int == n
  {
    [(n / 256) as byte, (n % 256) as byte]
  }

  function Encoded(c: OutputChunk): seq<byte>
    requires Fits(c)
  {
    [Number(c.stream)] + Header(|Utf8.Encode(c.id)|) + Utf8.Encode(c.id) + c.bytes
  }

  function Decode(bytes: seq<byte>): Result<OutputChunk, DecodeError> {
    if |bytes| < 3 then Err(ShortHeader)
    else
      var stream := TryFrom(bytes[0]);
      if stream.Err? then Err(stream.error)
      else
        var len := bytes[1] as int * 256 + bytes[2] as int;
        if |bytes| < 3 + len then Err(ShortId)
        else
          var id := Utf8.Decode(bytes[3..3 + len]);
          if id.None? then Err(InvalidId) else Ok(OutputChunk(stream.value, id.value, bytes[3 + len..]))
  }

  /** The buffer is filled part by part: the stream's number, the id's length with
      its high byte first, the id, the payload. Ids too long for the header are
      the caller's mistake. */
  method Encode(c: OutputChunk) returns (out: seq<byte>)
    requires Fits(c)
    ensures out == Encoded(c)
    ensures Decode(out) == Ok(c)
    ensures var id := Utf8.Encode(c.id);
            && |out| == 3 + |id| + |c.bytes|
            && out[0] == (match c.stream case Stdout => 0 case Stderr => 1 case Terminal => 2 case Stdin => 3)
            && out[1] as int == |id| / 256 && out[2] as int == |id| % 256
            && out[3..3 + |id|] == id && out[3 + |id|..] == c.bytes
  {
    var id := Utf8.Encode(c.id);
    var len := |id|;
    out := [];
    out := out + [Number(c.stream)];
    out := out + [(len / 256) as byte, (len % 256) as byte];
    out := out + id;
    out := out + c.bytes;
    RoundTrip(c);
  }

  /** Decoding undoes encoding, for every stream, payload and id that fits. */
  lemma RoundTrip(c: OutputChunk)
    requires Fits(c)
    ensures Decode(Encoded(c)) == Ok(c)
  {
    var id := Utf8.Encode(c.id);
    var b := Encoded(c);
    Utf8.DecodeEncode(c.id);
    assert b[0] == Number(c.stream) && b[1] == Header(|id|)[0] && b[2] == Header(|id|)[1];
    assert b[3..3 + |id|] == id;
    assert b[3 + |id|..] == c.bytes;
  }

  lemma Cut(b: seq<byte>, k: nat)
    requires 3 <= k <= |b|
    ensures b == [b[0]] + [b[1], b[2]] + b[3..k] + b[k..]
  {
  }

  /** Encoding undoes decoding: a frame that is accepted is the one encoding of what it decodes to. */
  lemma Canonical(b: seq<byte>)
    requires Decode(b).Ok?
    ensures Fits(Decode(b).value) && Encoded(Decode(b).value) == b
  {
    hide Utf8.Decode, Utf8.Encode;
    var c := Decode(b).value;
    var len := b[1] as int * 256 + b[2] as int;
    Utf8.EncodeDecode(b[3..3 + len]);
    assert Header(len) == [b[1], b[2]];
    Cut(b, 3 + len);
  }

  /** Decoding accepts exactly the encodings; so two chunks never share one. */
  lemma AcceptsEncodings(b: seq<byte>)
    ensures Decode(b).Ok? <==> exists c :: Fits(c) && Encoded(c) == b
    ensures forall c, d :: Fits(c) && Fits(d) && Encoded(c) == b && Encoded(d) == b ==> c == d
  {
    if Decode(b).Ok? {
      Canonical(b);
    }
    forall c | Fits(c) && Encoded(c) == b ensures Decode(b) == Ok(c) {
      RoundTrip(c);
    }
  }
}
