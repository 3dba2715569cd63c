/**
 * ByteBufferUtils.toHexString: a debugging dump of a ByteBuffer's backing
 * array, each byte written as "0x", two lower-case hex digits of the byte
 * masked with 0xff, and a comma.
 */
module ByteBufferUtils {
  import opened Wrappers

  /** Java's byte. */
  newtype int8 = x: int | -128 <= x < 128

  /**
   * `b & 0xff` after Java widens the byte to an int: the byte's
   * two's-complement bit pattern read as 0..255, never a sign-extended value.
   */
  function Unsigned(b: int8): (u: int)
    ensures 0 <= u < 256
    ensures (u - b as int) % 256 == 0
  {
    if b < 0 then b as int + 256 else b as int
  }

  /** The byte whose bit pattern is `u`: the inverse of Unsigned. */
  function Signed(u: int): (b: int8)
    requires 0 <= u < 256
    ensures Unsigned(b) == u
  {
    if u < 128 then u as int8 else (u - 256) as int8
  }

  /** The lower-case hex digit of `d`, as `%x` writes it. */
  function HexDigit(d: int): (c: char)
    requires 0 <= d < 16
    ensures '0' <= c <= '9' || 'a' <= c <= 'f'
    ensures HexValue(c) == Some(d)
  {
    if d < 10 then ('0' as int + d) as char else ('a' as int + d - 10) as char
  }

  /** The value of a lower-case hex digit. */
  function HexValue(c: char): Option<int> {
    if '0' <= c <= '9' then Some(c as int - '0' as int)
    else if 'a' <= c <= 'f' then Some(c as int - 'a' as int + 10)
    else None
  }

  /**
   * String.format("0x%02x,", b & 0xff): five characters that decode back to
   * the byte.
   */
  function Chunk(b: int8): (s: string)
    ensures |s| == 5 && s[0] == '0' && s[1] == 'x' && s[4] == ','
    ensures DecodeChunk(s) == Some(b)
  {
    var u := Unsigned(b);
    "0x" + [HexDigit(u / 16), HexDigit(u % 16)] + ","
  }

  /** Reads one five-character chunk "0xhh," back into a byte. */
  function DecodeChunk(s: string): Option<int8> {
    if |s| == 5 && s[0] == '0' && s[1] == 'x' && s[4] == ','
       && HexValue(s[2]).Some? && HexValue(s[3]).Some?
    then Some(Signed(16 * HexValue(s[2]).value + HexValue(s[3]).value))
    else None
  }

  /** The text toHexString builds for `bytes`: the chunks of the bytes, in order. */
  function HexString(bytes: seq<int8>): (s: string)
    ensures |s| == 5 * |bytes|
    decreases |bytes|
  {
    if bytes == [] then "" else HexString(bytes[..|bytes| - 1]) + Chunk(bytes[|bytes| - 1])
  }

  /**
   * toHexString: one formatted chunk appended to the builder per byte of the
   * backing array, the whole array regardless of position and limit.
   */
  method ToHexString(bytes: array<int8>) returns (s: string)
    ensures s == HexString(bytes[..])
  {
    var builder := "";
    for i := 0 to bytes.Length
      invariant builder == HexString(bytes[..i])
    {
      assert bytes[..i + 1][..i] == bytes[..i];
      builder := builder + Chunk(bytes[i]);
    }
    assert bytes[..bytes.Length] == bytes[..];
    s := builder;
  }

  /** Splits text into five-character chunks and decodes each; None if any chunk is malformed. */
  function ParseHexString(s: string): Option<seq<int8>>
    decreases |s|
  {
    if s == [] then Some([])
    else if |s| < 5 then None
    else
      match DecodeChunk(s[..5])
      case None => None
      case Some(b) =>
        match ParseHexString(s[5..])
        case None => None
        case Some(rest) => Some([b] + rest)
  }

  /** The dump of a concatenation is the concatenation of the dumps. */
  lemma {:induction false} HexStringAppend(a: seq<int8>, b: seq<int8>)
    ensures HexString(a + b) == HexString(a) + HexString(b)
    decreases |b|
  {
    if b == [] {
      assert a + b == a;
    } else {
      var b' := b[..|b| - 1];
      assert (a + b)[..|a + b| - 1] == a + b';
      HexStringAppend(a, b');
    }
  }

  /** Characters 5i..5i+4 of the dump are the chunk of byte i. */
  lemma {:induction false} HexStringChunkAt(bytes: seq<int8>, i: nat)
    requires i < |bytes|
    ensures HexString(bytes)[5 * i..5 * i + 5] == Chunk(bytes[i])
    decreases |bytes|
  {
    var init := bytes[..|bytes| - 1];
    if i < |bytes| - 1 {
      HexStringChunkAt(init, i);
      assert init[i] == bytes[i];
    }
  }

  /** An empty array dumps to "", and a non-empty dump ends with a comma. */
  lemma HexStringEnds(bytes: seq<int8>)
    ensures bytes == [] <==> HexString(bytes) == ""
    ensures bytes != [] ==> HexString(bytes)[|HexString(bytes)| - 1] == ','
  {
  }

  /** Negative bytes are masked: -1 dumps as "0xff," and -128 as "0x80,". */
  lemma NegativeBytesMasked()
    ensures Chunk(-1) == "0xff,"
    ensures Chunk(-128) == "0x80,"
    ensures Chunk(127) == "0x7f,"
    ensures Chunk(0) == "0x00,"
  {
  }

  /** Reading the dump back chunk by chunk recovers the bytes. */
  lemma {:induction false} ParseHexStringRoundTrip(bytes: seq<int8>)
    ensures ParseHexString(HexString(bytes)) == Some(bytes)
    decreases |bytes|
  {
    if bytes != [] {
      var rest := bytes[1..];
      assert bytes == [bytes[0]] + rest;
      HexStringAppend([bytes[0]], rest);
      assert HexString([bytes[0]]) == Chunk(bytes[0]) by {
        assert [bytes[0]][..0] == [];
      }
      var s := HexString(bytes);
      assert s[..5] == Chunk(bytes[0]);
      assert s[5..] == HexString(rest);
      ParseHexStringRoundTrip(rest);
    }
  }

  /** Different byte arrays never dump to the same text. */
  lemma HexStringInjective(a: seq<int8>, b: seq<int8>)
    requires HexString(a) == HexString(b)
    ensures a == b
  {
    ParseHexStringRoundTrip(a);
    ParseHexStringRoundTrip(b);
  }
}
