/**
 * The storage-agnostic record of a response (`ResponseEncoder`) and the byte
 * form it is stored in.
 */
module Encoders {
  import opened Wrappers
  import opened Http
  import opened Wire

  /** The three fields captured from a response. */
  datatype ResponseEncoder = ResponseEncoder(body: Bytes, statusCode: int, headers: Headers)

  /** Captures a response's body, status and header list. */
  function Encode(r: ResponseValue): ResponseEncoder {
    ResponseEncoder(r.body, r.status, r.headers)
  }

  /** Builds `Response(content=body, status_code=status_code, headers=headers)`. */
  function Decode(e: ResponseEncoder): ResponseValue {
    ResponseValue(e.body, e.statusCode, InitHeaders(e.headers, e.body), None)
  }

  /** The byte form written to storage. */
  function CacheData(e: ResponseEncoder): (data: Bytes)
    ensures data != []
  {
    assert EncodeNat(|e.body|)[0] in EncodeBytes(e.body);
    EncodeBytes(e.body) + EncodeInt(e.statusCode) + EncodeHeaders(e.headers)
  }

  /** Reads the byte form back; `None` stands for a validation failure. */
  function ModelValidateJson(data: Bytes): Option<ResponseEncoder> {
    match DecodeBytes(data)
    case None => None
    case Some((body, rest)) =>
      match DecodeInt(rest)
      case None => None
      case Some((status, rest')) =>
        match DecodeHeaders(rest')
        case None => None
        case Some((headers, rest'')) =>
          if rest'' == [] then Some(ResponseEncoder(body, status, headers)) else None
  }

  /** What is stored is read back as exactly the record that was stored. */
  lemma ValidateCacheData(e: ResponseEncoder)
    ensures ModelValidateJson(CacheData(e)) == Some(e)
  {
    var h := EncodeHeaders(e.headers);
    var tail := EncodeInt(e.statusCode) + h;
    assert CacheData(e) == EncodeBytes(e.body) + tail;
    DecodeEncodeBytes(e.body, tail);
    DecodeEncodeInt(e.statusCode, h);
    DecodeEncodeHeaders(e.headers, []);
    assert h + [] == h;
  }

  /**
   * A decoded response has exactly the stored body and status, no background
   * tasks, every stored header (name lower-cased), and a `content-length` equal
   * to the body length when no stored header gave one.
   */
  lemma DecodeSpec(e: ResponseEncoder)
    ensures Decode(e).body == e.body
    ensures Decode(e).status == e.statusCode
    ensures Decode(e).background.None?
    ensures forall i :: 0 <= i < |e.headers| ==> (Lower(e.headers[i].0), e.headers[i].1) in Decode(e).headers
    ensures Lookup(LowerNames(e.headers), "content-length").None? ==>
              HeaderGet(Decode(e).headers, "content-length") == Some(NatToString(|e.body|))
    ensures Lookup(LowerNames(e.headers), "content-length").Some? ==>
              Decode(e).headers == LowerNames(e.headers)
  {
    var raw := LowerNames(e.headers);
    forall i | 0 <= i < |e.headers|
      ensures (Lower(e.headers[i].0), e.headers[i].1) in Decode(e).headers
    {
      assert raw[i] == (Lower(e.headers[i].0), e.headers[i].1);
      if Lookup(raw, "content-length").None? {
        assert (raw + [("content-length", NatToString(|e.body|))])[i] == raw[i];
      }
    }
    LookupAppend(raw, [("content-length", NatToString(|e.body|))], "content-length");
    assert Lower("content-length") == "content-length";
  }

  /**
   * Round trip: decoding an encoded response gives back its body and status,
   * and every one of its (lower-case named) headers.
   */
  lemma DecodeEncode(r: ResponseValue)
    requires LowerCaseNames(r.headers)
    ensures Decode(Encode(r)).body == r.body
    ensures Decode(Encode(r)).status == r.status
    ensures forall i :: 0 <= i < |r.headers| ==> r.headers[i] in Decode(Encode(r)).headers
  {
    DecodeSpec(Encode(r));
  }
}
