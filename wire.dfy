/**
 * A self-delimiting byte encoding for naturals, integers, byte strings, text
 * and header lists, with decoders proved to invert the encoders.
 */
module Wire {
  import opened Wrappers
  import opened Http

  /** Little-endian base-128 groups; the high bit marks "more follows". */
  function EncodeNat(n: nat): (r: Bytes)
    decreases n
  {
    if n < 128 then [n as byte] else [(128 + n % 128) as byte] + EncodeNat(n / 128)
  }

  function DecodeNat(bs: Bytes): (r: Option<(nat, Bytes)>)
    ensures r.Some? ==> |r.value.1| < |bs|
    decreases |bs|
  {
    if |bs| == 0 then None
    else if bs[0] < 128 then Some((bs[0] as nat, bs[1..]))
    else match DecodeNat(bs[1..])
      case None => None
      case Some((m, rest)) => Some((bs[0] as int - 128 + 128 * m, rest))
  }

  lemma {:induction false} DecodeEncodeNat(n: nat, rest: Bytes)
    ensures DecodeNat(EncodeNat(n) + rest) == Some((n, rest))
    decreases n
  {
    var s := EncodeNat(n) + rest;
    if n < 128 {
      assert s[0] == n as byte && s[1..] == rest;
    } else {
      assert s[0] == (128 + n % 128) as byte;
      assert s[1..] == EncodeNat(n / 128) + rest;
      DecodeEncodeNat(n / 128, rest);
    }
  }

  /** Integers folded onto the naturals: 0, -1, 1, -2, 2, ... */
  function ZigZag(i: int): nat {
    if i >= 0 then 2 * i else -2 * i - 1
  }

  function UnZigZag(n: nat): int {
    if n % 2 == 0 then n / 2 else -(n + 1) / 2
  }

  function EncodeInt(i: int): Bytes {
    EncodeNat(ZigZag(i))
  }

  function DecodeInt(bs: Bytes): (r: Option<(int, Bytes)>)
    ensures r.Some? ==> |r.value.1| < |bs|
  {
    match DecodeNat(bs)
    case None => None
    case Some((n, rest)) => Some((UnZigZag(n), rest))
  }

  lemma DecodeEncodeInt(i: int, rest: Bytes)
    ensures DecodeInt(EncodeInt(i) + rest) == Some((i, rest))
  {
    DecodeEncodeNat(ZigZag(i), rest);
  }

  function EncodeBytes(b: Bytes): Bytes {
    EncodeNat(|b|) + b
  }

  function DecodeBytes(bs: Bytes): (r: Option<(Bytes, Bytes)>)
    ensures r.Some? ==> |r.value.1| < |bs|
  {
    match DecodeNat(bs)
    case None => None
    case Some((n, rest)) => if n <= |rest| then Some((rest[..n], rest[n..])) else None
  }

  lemma DecodeEncodeBytes(b: Bytes, rest: Bytes)
    ensures DecodeBytes(EncodeBytes(b) + rest) == Some((b, rest))
  {
    assert EncodeBytes(b) + rest == EncodeNat(|b|) + (b + rest);
    DecodeEncodeNat(|b|, b + rest);
    assert (b + rest)[..|b|] == b && (b + rest)[|b|..] == rest;
  }

  /** A character as its Unicode scalar value. */
  function EncodeChar(c: char): Bytes {
    EncodeNat(c as int)
  }

  function DecodeChar(bs: Bytes): (r: Option<(char, Bytes)>)
    ensures r.Some? ==> |r.value.1| < |bs|
  {
    match DecodeNat(bs)
    case None => None
    case Some((n, rest)) =>
      if n < 0xD800 || 0xE000 <= n < 0x11_0000 then Some((n as char, rest)) else None
  }

  function EncodeChars(s: string): Bytes {
    if s == [] then [] else EncodeChar(s[0]) + EncodeChars(s[1..])
  }

  function DecodeChars(count: nat, bs: Bytes): (r: Option<(string, Bytes)>)
    ensures r.Some? ==> |r.value.1| <= |bs|
    decreases count
  {
    if count == 0 then Some(([], bs))
    else match DecodeChar(bs)
      case None => None
      case Some((c, rest)) =>
        match DecodeChars(count - 1, rest)
        case None => None
        case Some((cs, rest')) => Some(([c] + cs, rest'))
  }

  lemma {:induction false} DecodeEncodeChars(s: string, rest: Bytes)
    ensures DecodeChars(|s|, EncodeChars(s) + rest) == Some((s, rest))
  {
    if s != [] {
      var tail := EncodeChars(s[1..]) + rest;
      assert EncodeChars(s) + rest == EncodeNat(s[0] as int) + tail;
      DecodeEncodeNat(s[0] as int, tail);
      assert DecodeChar(EncodeChars(s) + rest) == Some((s[0], tail));
      DecodeEncodeChars(s[1..], rest);
      assert [s[0]] + s[1..] == s;
    } else {
      assert EncodeChars(s) + rest == rest;
    }
  }

  function EncodeString(s: string): Bytes {
    EncodeNat(|s|) + EncodeChars(s)
  }

  function DecodeString(bs: Bytes): (r: Option<(string, Bytes)>)
    ensures r.Some? ==> |r.value.1| < |bs|
  {
    match DecodeNat(bs)
    case None => None
    case Some((n, rest)) => DecodeChars(n, rest)
  }

  lemma DecodeEncodeString(s: string, rest: Bytes)
    ensures DecodeString(EncodeString(s) + rest) == Some((s, rest))
  {
    assert EncodeString(s) + rest == EncodeNat(|s|) + (EncodeChars(s) + rest);
    DecodeEncodeNat(|s|, EncodeChars(s) + rest);
    DecodeEncodeChars(s, rest);
  }

  function EncodePairs(h: Headers): Bytes {
    if h == [] then [] else EncodeString(h[0].0) + EncodeString(h[0].1) + EncodePairs(h[1..])
  }

  function DecodePairs(count: nat, bs: Bytes): (r: Option<(Headers, Bytes)>)
    ensures r.Some? ==> |r.value.1| <= |bs|
    decreases count
  {
    if count == 0 then Some(([], bs))
    else match DecodeString(bs)
      case None => None
      case Some((name, rest)) =>
        match DecodeString(rest)
        case None => None
        case Some((value, rest')) =>
          match DecodePairs(count - 1, rest')
          case None => None
          case Some((more, rest'')) => Some(([(name, value)] + more, rest''))
  }

  lemma {:induction false} DecodeEncodePairs(h: Headers, rest: Bytes)
    ensures DecodePairs(|h|, EncodePairs(h) + rest) == Some((h, rest))
  {
    if h != [] {
      var tail := EncodePairs(h[1..]) + rest;
      assert EncodePairs(h) + rest == EncodeString(h[0].0) + (EncodeString(h[0].1) + tail);
      DecodeEncodeString(h[0].0, EncodeString(h[0].1) + tail);
      DecodeEncodeString(h[0].1, tail);
      DecodeEncodePairs(h[1..], rest);
      assert [(h[0].0, h[0].1)] + h[1..] == h;
    } else {
      assert EncodePairs(h) + rest == rest;
    }
  }

  function EncodeHeaders(h: Headers): Bytes {
    EncodeNat(|h|) + EncodePairs(h)
  }

  function DecodeHeaders(bs: Bytes): (r: Option<(Headers, Bytes)>)
    ensures r.Some? ==> |r.value.1| < |bs|
  {
    match DecodeNat(bs)
    case None => None
    case Some((n, rest)) => DecodePairs(n, rest)
  }

  lemma DecodeEncodeHeaders(h: Headers, rest: Bytes)
    ensures DecodeHeaders(EncodeHeaders(h) + rest) == Some((h, rest))
  {
    assert EncodeHeaders(h) + rest == EncodeNat(|h|) + (EncodePairs(h) + rest);
    DecodeEncodeNat(|h|, EncodePairs(h) + rest);
    DecodeEncodePairs(h, rest);
  }
}
