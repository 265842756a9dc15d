/** Messages on a byte stream: a four-byte big-endian length, then the encoded message. */
module Framing {
  import opened Wrappers

  datatype Message<T> = Message(rank: nat, data: T)

  /** `Io` is an end of the stream in the middle of a message. */
  datatype ExchangeError = Io | Serde | MessageTooLarge(size: nat)

  type StreamResult<+T> = Result<T, ExchangeError>

  const HEADER := 4
  const U32_LIMIT := 0x1_0000_0000

  function ToBigEndian(n: nat): (bytes: seq<byte>)
    requires n < U32_LIMIT
    ensures |bytes| == HEADER
  {
    [n / 0x100_0000, n / 0x1_0000 % 0x100, n / 0x100 % 0x100, n % 0x100]
  }

  function FromBigEndian(bytes: seq<byte>): (n: nat)
    requires |bytes| == HEADER
    ensures n < U32_LIMIT
  {
    var (a: nat, b: nat, c: nat, d: nat) := (bytes[0], bytes[1], bytes[2], bytes[3]);
    a * 0x100_0000 + b * 0x1_0000 + c * 0x100 + d
  }

  lemma BigEndianRoundTrip(n: nat)
    requires n < U32_LIMIT
    ensures FromBigEndian(ToBigEndian(n)) == n
  {
    assert n == n / 0x100 * 0x100 + n % 0x100;
    assert n / 0x100 == n / 0x1_0000 * 0x100 + n / 0x100 % 0x100;
    assert n / 0x1_0000 == n / 0x100_0000 * 0x100 + n / 0x1_0000 % 0x100;
  }

  /** The encoder and decoder of messages; all that is assumed of them is that decoding undoes
      encoding. */
  datatype Codec<!T(!new)> = Codec(encode: Message<T> -> seq<byte>, decode: seq<byte> -> StreamResult<Message<T>>) {
    ghost predicate Valid() {
      forall m :: decode(encode(m)) == Ok(m)
    }
  }

  function WriteStream<T(!new)>(codec: Codec<T>, m: Message<T>): StreamResult<seq<byte>> {
    var encoded := codec.encode(m);
    if |encoded| >= U32_LIMIT then Err(MessageTooLarge(|encoded|))
    else Ok(ToBigEndian(|encoded|) + encoded)
  }

  /** Reads one message; the second part of the value is the stream after it. */
  function ReadStream<T(!new)>(codec: Codec<T>, stream: seq<byte>): StreamResult<(Message<T>, seq<byte>)> {
    if |stream| < HEADER then Err(Io)
    else
      var size := FromBigEndian(stream[..HEADER]);
      var rest := stream[HEADER..];
      if |rest| < size then Err(Io)
      else
        match codec.decode(rest[..size])
        case Ok(m) => Ok((m, rest[size..]))
        case Err(e) => Err(e)
  }

  /** The stream starts with a whole frame of this length. */
  predicate HasFrame(stream: seq<byte>, size: nat) {
    && |stream| >= 4 + size
    && var (a: nat, b: nat, c: nat, d: nat) := (stream[0], stream[1], stream[2], stream[3]);
       a * 0x100_0000 + b * 0x1_0000 + c * 0x100 + d == size
  }

  /** Every message of less than 2^32 bytes can be sent, and none longer: its frame is the
      length as four bytes, the most significant first, and then the encoding. */
  lemma WriteIs<T(!new)>(codec: Codec<T>, m: Message<T>)
    ensures WriteStream(codec, m).Ok? <==> |codec.encode(m)| < 0x1_0000_0000
    ensures WriteStream(codec, m).Err? ==> WriteStream(codec, m).error == MessageTooLarge(|codec.encode(m)|)
    ensures
      WriteStream(codec, m).Ok? ==>
        var frame := WriteStream(codec, m).value;
        && |frame| == 4 + |codec.encode(m)| && frame[4..] == codec.encode(m)
        && HasFrame(frame, |codec.encode(m)|)
  {
    if |codec.encode(m)| < U32_LIMIT {
      BigEndianRoundTrip(|codec.encode(m)|);
    }
  }

  /** Reading takes the first frame off the stream and decodes it; it fails exactly if there is
      no whole frame, or the decoder refuses it, with the decoder's error. */
  lemma ReadIs<T(!new)>(codec: Codec<T>, stream: seq<byte>, size: nat)
    ensures HasFrame(stream, size) ==>
              ReadStream(codec, stream) ==
              match codec.decode(stream[4..4 + size])
              case Ok(m) => Ok((m, stream[4 + size..]))
              case Err(e) => Err(e)
    ensures (forall k: nat :: !HasFrame(stream, k)) ==> ReadStream(codec, stream) == Err(Io)
  {
    if |stream| >= HEADER {
      var rest := stream[HEADER..];
      var length := FromBigEndian(stream[..HEADER]);
      if length <= |rest| {
        assert HasFrame(stream, length);
        assert rest[..length] == stream[4..4 + length] && rest[length..] == stream[4 + length..];
      }
    }
  }

  lemma ReadUndoesWrite<T(!new)>(codec: Codec<T>, m: Message<T>, rest: seq<byte>)
    requires codec.Valid() && WriteStream(codec, m).Ok?
    ensures ReadStream(codec, WriteStream(codec, m).value + rest) == Ok((m, rest))
  {
    var encoded := codec.encode(m);
    var header := ToBigEndian(|encoded|);
    var stream := header + encoded + rest;
    BigEndianRoundTrip(|encoded|);
    assert stream[..HEADER] == header;
    assert stream[HEADER..] == encoded + rest;
    assert (encoded + rest)[..|encoded|] == encoded;
    assert (encoded + rest)[|encoded|..] == rest;
  }

  /** A stream that ends anywhere inside a message is an error, never another message. */
  lemma TruncationIsAnError<T(!new)>(codec: Codec<T>, m: Message<T>, k: nat)
    requires WriteStream(codec, m).Ok? && k < |WriteStream(codec, m).value|
    ensures ReadStream(codec, WriteStream(codec, m).value[..k]) == Err(Io)
  {
    var encoded := codec.encode(m);
    var header := ToBigEndian(|encoded|);
    var cut := (header + encoded)[..k];
    if k >= HEADER {
      BigEndianRoundTrip(|encoded|);
      assert cut[..HEADER] == header;
    }
  }

  /** All messages written to a stream one after the other. */
  function WriteAll<T(!new)>(codec: Codec<T>, ms: seq<Message<T>>): StreamResult<seq<byte>> {
    if |ms| == 0 then Ok([])
    else
      match (WriteStream(codec, ms[0]), WriteAll(codec, ms[1..]))
      case (Err(e), _) => Err(e)
      case (_, Err(e)) => Err(e)
      case (Ok(first), Ok(rest)) => Ok(first + rest)
  }

  /** Messages can be written one after the other if and only if each of them can. */
  lemma {:induction false} WriteAllIs<T(!new)>(codec: Codec<T>, ms: seq<Message<T>>)
    ensures WriteAll(codec, ms).Ok? <==> forall k :: 0 <= k < |ms| ==> |codec.encode(ms[k])| < 0x1_0000_0000
  {
    if |ms| > 0 {
      WriteIs(codec, ms[0]);
      WriteAllIs(codec, ms[1..]);
      assert forall k :: 0 < k < |ms| ==> ms[k] == ms[1..][k - 1];
    }
  }

  function ReadAll<T(!new)>(codec: Codec<T>, count: nat, stream: seq<byte>): StreamResult<(seq<Message<T>>, seq<byte>)> {
    if count == 0 then Ok(([], stream))
    else
      match ReadStream(codec, stream)
      case Err(e) => Err(e)
      case Ok((m, rest)) =>
        match ReadAll(codec, count - 1, rest)
        case Err(e) => Err(e)
        case Ok((ms, last)) => Ok(([m] + ms, last))
  }

  /** A stream of frames carries the messages written to it, in order and nothing else: a
      connection is a queue of messages. */
  lemma {:induction false} StreamIsAQueue<T(!new)>(codec: Codec<T>, ms: seq<Message<T>>, rest: seq<byte>)
    requires codec.Valid() && WriteAll(codec, ms).Ok?
    ensures ReadAll(codec, |ms|, WriteAll(codec, ms).value + rest) == Ok((ms, rest))
  {
    if |ms| == 0 {
      assert [] + rest == rest;
      assert WriteAll(codec, ms).value + rest == rest;
    } else {
      var first := WriteStream(codec, ms[0]).value;
      var later := WriteAll(codec, ms[1..]).value;
      StreamIsAQueue(codec, ms[1..], rest);
      ReadUndoesWrite(codec, ms[0], later + rest);
      assert first + later + rest == first + (later + rest);
      assert [ms[0]] + ms[1..] == ms;
    }
  }
}
