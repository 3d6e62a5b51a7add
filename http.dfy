/**
 * The HTTP value types the cache layer works on: bytes, header lists with the
 * semantics of the framework's header containers, requests, and responses.
 */
module Http {
  import opened Wrappers

  newtype byte = x: int | 0 <= x < 256
  type Bytes = seq<byte>

  /** A raw header list: ordered (name, value) pairs, duplicates allowed. */
  type Header = (string, string)
  type Headers = seq<Header>

  /** Converts text whose characters are all below 256 into bytes (latin-1). */
  function Latin1(s: string): (b: Bytes)
    requires forall i :: 0 <= i < |s| ==> s[i] as int < 256
  {
    seq(|s|, i requires 0 <= i < |s| => s[i] as int as byte)
  }

  /**
   * `str.lower()` on one character, for the characters whose lower case is latin-1:
   * the ASCII capitals and the latin-1 capitals U+00C0 to U+00DE (except the
   * multiplication sign U+00D7) move up by 32, and four capitals outside latin-1
   * map into it (Y with diaeresis, capital sharp s, the Kelvin and the Angstrom
   * signs). Every other character is kept.
   */
  function LowerChar(c: char): char {
    if 'A' <= c <= 'Z' || ('\U{C0}' <= c <= '\U{DE}' && c != '\U{D7}') then (c as int + 32) as char
    else if c == '\U{178}' then '\U{FF}'
    else if c == '\U{1E9E}' then '\U{DF}'
    else if c == '\U{212A}' then 'k'
    else if c == '\U{212B}' then '\U{E5}'
    else c
  }

  /** Lower-casing of header names, as `str.lower()` does wherever the result is latin-1. */
  function Lower(s: string): string {
    seq(|s|, i requires 0 <= i < |s| => LowerChar(s[i]))
  }

  /** Lower-casing a stored name again changes nothing. */
  lemma LowerIdempotent(s: string)
    ensures Lower(Lower(s)) == Lower(s)
  {
  }

  /**
   * A name that is latin-1 apart from those four capitals is latin-1 once lower-cased,
   * so Starlette stores it without an encoding error.
   */
  lemma LowerIntoLatin1(s: string)
    requires forall i :: 0 <= i < |s| ==> s[i] as int < 256 || s[i] in "\U{178}\U{1E9E}\U{212A}\U{212B}"
    ensures forall i :: 0 <= i < |Lower(s)| ==> Lower(s)[i] as int < 256
    ensures Lower("\U{212A}-Cache") == "k-cache"
  {
  }

  /** The value of the first entry whose name is exactly `key`. */
  function Lookup(h: Headers, key: string): Option<string> {
    if h == [] then None
    else if h[0].0 == key then Some(h[0].1)
    else Lookup(h[1..], key)
  }

  /** `headers.get(name)`: case-insensitive on the requested name. */
  function HeaderGet(h: Headers, name: string): Option<string> {
    Lookup(h, Lower(name))
  }

  /** The entries whose name is not `key`, in order. */
  function Without(h: Headers, key: string): Headers {
    if h == [] then []
    else if h[0].0 == key then Without(h[1..], key)
    else [h[0]] + Without(h[1..], key)
  }

  /** Overwrites the first entry named `key` and drops the later ones. */
  function ReplaceFirst(h: Headers, key: string, value: string): Headers
    requires Lookup(h, key).Some?
  {
    if h[0].0 == key then [(key, value)] + Without(h[1..], key)
    else [h[0]] + ReplaceFirst(h[1..], key, value)
  }

  /** Item assignment on a mutable header list: replace in place, else append. */
  function Put(h: Headers, key: string, value: string): Headers {
    if Lookup(h, key).Some? then ReplaceFirst(h, key, value) else h + [(key, value)]
  }

  /** `headers.update({name: value})`: the name is stored lower-cased. */
  function SetHeader(h: Headers, name: string, value: string): Headers {
    Put(h, Lower(name), value)
  }

  /** `headers.raw.extend(more)`: plain concatenation, no de-duplication. */
  function ExtendRaw(h: Headers, more: Headers): Headers {
    h + more
  }

  lemma {:induction false} LookupWithout(h: Headers, key: string)
    ensures Lookup(Without(h, key), key).None?
  {
    if h != [] { LookupWithout(h[1..], key); }
  }

  lemma {:induction false} LookupWithoutOther(h: Headers, key: string, other: string)
    requires other != key
    ensures Lookup(Without(h, key), other) == Lookup(h, other)
  {
    if h != [] { LookupWithoutOther(h[1..], key, other); }
  }

  lemma {:induction false} WithoutTwice(h: Headers, key: string)
    ensures Without(Without(h, key), key) == Without(h, key)
  {
    if h != [] { WithoutTwice(h[1..], key); }
  }

  lemma {:induction false} ReplaceFirstShape(h: Headers, key: string, value: string)
    requires Lookup(h, key).Some?
    ensures Lookup(ReplaceFirst(h, key, value), key) == Some(value)
    ensures Without(ReplaceFirst(h, key, value), key) == Without(h, key)
    ensures forall other :: other != key ==> Lookup(ReplaceFirst(h, key, value), other) == Lookup(h, other)
  {
    if h[0].0 == key {
      WithoutTwice(h[1..], key);
      forall other | other != key
        ensures Lookup(ReplaceFirst(h, key, value), other) == Lookup(h, other)
      {
        LookupWithoutOther(h[1..], key, other);
      }
    } else {
      ReplaceFirstShape(h[1..], key, value);
    }
  }

  lemma {:induction false} WithoutAppend(h: Headers, more: Headers, key: string)
    ensures Without(h + more, key) == Without(h, key) + Without(more, key)
  {
    if h == [] {
      assert h + more == more;
    } else {
      assert (h + more)[1..] == h[1..] + more;
      WithoutAppend(h[1..], more, key);
    }
  }

  lemma {:induction false} LookupAppend(h: Headers, more: Headers, key: string)
    ensures Lookup(h + more, key) == if Lookup(h, key).Some? then Lookup(h, key) else Lookup(more, key)
  {
    if h == [] {
      assert h + more == more;
    } else {
      assert (h + more)[1..] == h[1..] + more;
      LookupAppend(h[1..], more, key);
    }
  }

  /**
   * After an item assignment the name is bound to the new value, no other
   * name changes its value, and every entry with another name survives in
   * its original order.
   */
  lemma SetHeaderSpec(h: Headers, name: string, value: string)
    ensures HeaderGet(SetHeader(h, name, value), name) == Some(value)
    ensures Without(SetHeader(h, name, value), Lower(name)) == Without(h, Lower(name))
    ensures forall other :: other != Lower(name) ==>
              Lookup(SetHeader(h, name, value), other) == Lookup(h, other)
  {
    var key := Lower(name);
    if Lookup(h, key).Some? {
      ReplaceFirstShape(h, key, value);
    } else {
      LookupAppend(h, [(key, value)], key);
      WithoutAppend(h, [(key, value)], key);
      assert Without([(key, value)], key) == [];
      assert Without(h, key) + [] == Without(h, key);
      forall other | other != key
        ensures Lookup(SetHeader(h, name, value), other) == Lookup(h, other)
      {
        LookupAppend(h, [(key, value)], other);
      }
    }
  }

  /** Decimal rendering of a natural number, as `str(n)` does. */
  function NatToString(n: nat): string {
    var digit := (48 + n % 10) as char;
    if n < 10 then [digit] else NatToString(n / 10) + [digit]
  }

  /** Background tasks attached to a response, run after it is sent. */
  datatype Background = Background(tasks: seq<string>)

  /** An immutable snapshot of a response object's observable fields. */
  datatype ResponseValue = ResponseValue(
    body: Bytes,
    status: int,
    headers: Headers,
    background: Option<Background>)

  /**
   * The headers a plain `Response(content, status_code, headers)` starts with:
   * the given names lower-cased, plus a `content-length` when none was given.
   */
  function InitHeaders(given: Headers, body: Bytes): Headers {
    var raw := LowerNames(given);
    if Lookup(raw, "content-length").Some? then raw
    else raw + [("content-length", NatToString(|body|))]
  }

  /** The same entries with every name lower-cased. */
  function LowerNames(h: Headers): Headers {
    seq(|h|, i requires 0 <= i < |h| => (Lower(h[i].0), h[i].1))
  }

  /** Header lists built by the framework keep their names lower-cased. */
  predicate LowerCaseNames(h: Headers) {
    forall i :: 0 <= i < |h| ==> Lower(h[i].0) == h[i].0
  }

  /** A live response object; the request pipeline updates its fields in place. */
  class Response {
    var body: Bytes
    var status: int
    var headers: Headers
    var background: Option<Background>

    constructor (v: ResponseValue)
      ensures Value() == v
    {
      body, status, headers, background := v.body, v.status, v.headers, v.background;
    }

    function Value(): ResponseValue
      reads this
    {
      ResponseValue(body, status, headers, background)
    }
  }

  /** The parts of an incoming request the cache layer inspects. */
  datatype Request = Request(httpMethod: string, path: string, headers: Headers)

  /** A parsed JSON document. */
  datatype Json =
    | JNull
    | JBool(b: bool)
    | JNumber(n: int)
    | JString(s: string)
    | JArray(items: seq<Json>)
    | JObject(fields: seq<(string, Json)>)

  /** The request body as handed to dependency resolution. */
  datatype Body =
    | NoBody
    | FormBody(fields: seq<(string, string)>)
    | JsonBody(json: Json)
    | RawBody(bytes: Bytes)
}
