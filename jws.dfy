/** The flattened JWS envelope of an ACME request (acme_isolator/acme/request/jws.py):
    the protected header of section 6.2 of RFC 8555, the payload (empty for POST-as-GET,
    section 6.3 of RFC 8555), and the JWS Signing Input of section 5.1 of RFC 7515. The JSON
    text and the ECDSA signature come from libraries and are parameters here. */
module Jws {
  import opened Wrappers
  import opened Strings
  import opened Values
  import opened Base64

  /** The default of `alg`. */
  const DefaultAlg: string := "ES256"

  function Pow256(k: nat): (p: nat)
    ensures p > 0
  {
    if k == 0 then 1 else 256 * Pow256(k - 1)
  }

  /** The unsigned big-endian value of octets. */
  function FromBigEndian(b: seq<byte>): nat
    decreases |b|
  {
    if b == [] then 0 else FromBigEndian(b[..|b| - 1]) * 256 + b[|b| - 1]
  }

  /** The `k` octets of `n`, most significant first. */
  function BigEndian(n: nat, k: nat): (b: seq<byte>)
    requires n < Pow256(k)
    ensures |b| == k && FromBigEndian(b) == n
  {
    if k == 0 then []
    else
      var b := BigEndian(n / 256, k - 1) + [n % 256];
      assert b[..|b| - 1] == BigEndian(n / 256, k - 1);
      b
  }

  /** 2 to the 256th: the values 32 octets hold. */
  const Bound32: nat := 0x1_0000_0000_0000_0000_0000_0000_0000_0000_0000_0000_0000_0000_0000_0000_0000_0000

  lemma {:induction false} Pow256Add(a: nat, b: nat)
    ensures Pow256(a + b) == Pow256(a) * Pow256(b)
    decreases a
  {
    if a > 0 {
      Pow256Add(a - 1, b);
    }
  }

  lemma Bound32IsPow()
    ensures Pow256(32) == Bound32
  {
    assert Pow256(4) == 0x1_0000_0000;
    Pow256Add(4, 4);
    Pow256Add(8, 8);
    Pow256Add(16, 16);
  }

  /** `int.to_bytes(32, "big", signed=False)`: OverflowError unless the value fits. */
  function ToBytes32(n: int): (r: Result<seq<byte>>)
    ensures r.Ok? <==> 0 <= n < Bound32
    ensures r.Err? ==> r.error == OverflowError
    ensures r.Ok? ==> |r.value| == 32 && FromBigEndian(r.value) == n
  {
    if 0 <= n < Bound32 then
      Bound32IsPow();
      Ok(BigEndian(n, 32))
    else Err(OverflowError)
  }

  /** `json.dumps(v)` encoded: TypeError for a value it cannot serialise (bytes, say);
      `serialize` gives the text of one it can, as octets. */
  function Dumps(v: Value, serialize: Value -> seq<byte>): (r: Result<seq<byte>>)
    ensures r.Ok? <==> Serializable(v)
    ensures r.Err? ==> r.error == TypeError
  {
    if Serializable(v) then Ok(serialize(v)) else Err(TypeError)
  }

  /** The header field naming the key: `JwsJwk` sends the public key, `JwsKid` the account
      URL, possibly None. */
  datatype KeyRef = JwkRef(jwk: Value) | KidRef(kid: Value)

  /** A JWS builder: `nonce`, `url`, `payload`, `alg` and the key field of its subclass. */
  datatype Jws = Jws(nonce: string, url: string, payload: Value, alg: string, keyRef: KeyRef)

  /** `JwsJwk.__post_init__` as written: `x` and `y` are left as the padded encodings in
      bytes, as `urlsafe_b64encode` returns them. */
  function JwkAsWritten(x: int, y: int): (r: Result<Value>)
    ensures r.Ok? <==> 0 <= x < Bound32 && 0 <= y < Bound32
    ensures r.Ok? ==> r.value.PyDict? && r.value.entries.Keys == {"crv", "x", "y"} &&
                      r.value.entries["crv"] == PyStr("P-256") &&
                      r.value.entries["x"].PyBytes? && r.value.entries["y"].PyBytes? && !Serializable(r.value)
  {
    var xb :- ToBytes32(x);
    var yb :- ToBytes32(y);
    var jwk := map["crv" := PyStr("P-256"), "x" := PyBytes(Ascii(Padded(xb))), "y" := PyBytes(Ascii(Padded(yb)))];
    assert !Serializable(jwk["x"]);
    Ok(PyDict(jwk))
  }

  /** A coordinate as 32 big-endian octets in base64url. */
  function Coordinate(n: int): (r: Result<string>)
    ensures r.Ok? <==> 0 <= n < Bound32
    ensures r.Ok? ==> AllAlphabet(r.value) && Decode(r.value) == ToBytes32(n).value
    ensures r.Ok? ==> |Decode(r.value)| == 32 && FromBigEndian(Decode(r.value)) == n
  {
    var b :- ToBytes32(n);
    DecodeEncode(b);
    Ok(Encode(b))
  }

  /** The public key as section 6.2.1 of RFC 7518 writes it: curve `P-256`, each coordinate
      as 32 big-endian octets in base64url. */
  function Jwk(x: int, y: int): (r: Result<Value>)
    ensures r.Ok? <==> 0 <= x < Bound32 && 0 <= y < Bound32
    ensures r.Ok? ==> IsJson(r.value) && r.value.PyDict? && r.value.entries.Keys == {"crv", "x", "y"}
    ensures r.Ok? ==> r.value.entries["crv"] == PyStr("P-256")
    ensures r.Ok? ==> var e := r.value.entries;
              e["x"].PyStr? && AllAlphabet(e["x"].s) && |Decode(e["x"].s)| == 32 && FromBigEndian(Decode(e["x"].s)) == x &&
              e["y"].PyStr? && AllAlphabet(e["y"].s) && |Decode(e["y"].s)| == 32 && FromBigEndian(Decode(e["y"].s)) == y
  {
    var cx, cy := Coordinate(x), Coordinate(y);
    if cx.Err? then Err(cx.error)
    else if cy.Err? then Err(cy.error)
    else Ok(KeyObject(cx.value, cy.value))
  }

  /** The JSON object of a P-256 public key with its two encoded coordinates. */
  function KeyObject(xs: string, ys: string): (v: Value)
    ensures IsJson(v) && v.PyDict? && v.entries.Keys == {"crv", "x", "y"}
    ensures v.entries["crv"] == PyStr("P-256") && v.entries["x"] == PyStr(xs) && v.entries["y"] == PyStr(ys)
  {
    var jwk := map["crv" := PyStr("P-256"), "x" := PyStr(xs), "y" := PyStr(ys)];
    assert IsJson(jwk["x"]) && IsJson(jwk["y"]) && IsJson(jwk["crv"]);
    PyDict(jwk)
  }

  /** The `alg` of a builder: the argument when one is given, `DefaultAlg` otherwise. */
  function AlgOrDefault(alg: Option<string>): (a: string)
    ensures alg.Some? ==> a == alg.value
    ensures alg.None? ==> a == "ES256"
  {
    if alg.Some? then alg.value else DefaultAlg
  }

  /** `JwsJwk(...)`: the public numbers of the key give the `jwk`; an omitted `alg` is
      `DefaultAlg`. */
  function NewJwsJwk(nonce: string, url: string, payload: Value, alg: Option<string>, x: int, y: int, asWritten: bool): (r: Result<Jws>)
    ensures r.Ok? <==> 0 <= x < Bound32 && 0 <= y < Bound32
    ensures r.Ok? ==> r.value.keyRef == JwkRef((if asWritten then JwkAsWritten(x, y) else Jwk(x, y)).value)
    ensures r.Ok? && !asWritten ==> IsJson(r.value.keyRef.jwk)
    ensures r.Ok? && asWritten ==> !Serializable(r.value.keyRef.jwk)
    ensures r.Ok? ==> r.value.nonce == nonce && r.value.url == url &&
                      r.value.payload == payload && r.value.alg == AlgOrDefault(alg)
    ensures r.Ok? && alg.None? ==> CreateHeaders(r.value)["alg"] == PyStr("ES256")
  {
    var jwk :- if asWritten then JwkAsWritten(x, y) else Jwk(x, y);
    Ok(Jws(nonce, url, payload, AlgOrDefault(alg), JwkRef(jwk)))
  }

  /** `JwsKid(...)`: an omitted `alg` is `DefaultAlg` and an omitted `kid` is None. */
  function NewJwsKid(nonce: string, url: string, payload: Value, alg: Option<string>, kid: Option<Value>): (r: Jws)
    ensures r.nonce == nonce && r.url == url && r.payload == payload && r.alg == AlgOrDefault(alg)
    ensures r.keyRef.KidRef? && (kid.Some? ==> r.keyRef.kid == kid.value)
    ensures alg.None? ==> CreateHeaders(r)["alg"] == PyStr("ES256")
    ensures kid.None? ==> CreateHeaders(r)["kid"] == PyNone
  {
    Jws(nonce, url, payload, AlgOrDefault(alg), KidRef(if kid.Some? then kid.value else PyNone))
  }

  /** `create_headers`: `alg`, `nonce` and `url`, and exactly one of `jwk` and `kid`. */
  function CreateHeaders(j: Jws): (h: map<string, Value>)
    ensures h.Keys == {"alg", "nonce", "url"} + (if j.keyRef.JwkRef? then {"jwk"} else {"kid"})
    ensures h["alg"] == PyStr(j.alg) && h["nonce"] == PyStr(j.nonce) && h["url"] == PyStr(j.url)
    ensures j.keyRef.JwkRef? ==> h["jwk"] == j.keyRef.jwk && "kid" !in h
    ensures j.keyRef.KidRef? ==> h["kid"] == j.keyRef.kid && "jwk" !in h
  {
    var base := map["alg" := PyStr(j.alg), "nonce" := PyStr(j.nonce), "url" := PyStr(j.url)];
    match j.keyRef
    case JwkRef(jwk) => base["jwk" := jwk]
    case KidRef(kid) => base["kid" := kid]
  }

  /** `create_payload`: bytes pass unchanged, anything else is serialised as JSON. */
  function CreatePayload(payload: Value, serialize: Value -> seq<byte>): (r: Result<seq<byte>>)
    ensures payload.PyBytes? ==> r == Ok(payload.bytes)
    ensures !payload.PyBytes? ==> r == Dumps(payload, serialize)
  {
    if payload.PyBytes? then Ok(payload.bytes) else Dumps(payload, serialize)
  }

  /** The payload segment: empty for a None payload (POST-as-GET), else the encoded
      payload. */
  function PayloadSegment(j: Jws, serialize: Value -> seq<byte>): (r: Result<string>)
    ensures j.payload == PyNone ==> r == Ok("")
    ensures j.payload.PyBytes? ==> r == Ok(Encode(j.payload.bytes))
    ensures j.payload != PyNone && !j.payload.PyBytes? ==>
              (r.Ok? <==> Serializable(j.payload)) && (r.Ok? ==> r.value == Encode(serialize(j.payload)))
    ensures r.Ok? ==> AllAlphabet(r.value)
    ensures j.payload != PyNone && r.Ok? ==> Decode(r.value) == CreatePayload(j.payload, serialize).value
  {
    if j.payload == PyNone then Ok("")
    else
      var p :- CreatePayload(j.payload, serialize);
      EncodeIsUnpadded(p);
      DecodeEncode(p);
      Ok(Encode(p))
  }

  /** The JWS Signing Input: the ASCII octets of header, `.`, payload. */
  function SigningInput(header: string, payload: string): (b: seq<byte>)
    requires AllAlphabet(header) && AllAlphabet(payload)
    ensures |b| == |header| + 1 + |payload|
    ensures b[..|header|] == Ascii(header) && b[|header|] == '.' as int && b[|header| + 1..] == Ascii(payload)
  {
    var s := header + "." + payload;
    assert forall i :: 0 <= i < |s| ==> s[i] as int < 128 by {
      forall i | 0 <= i < |s|
        ensures s[i] as int < 128
      {
        if i < |header| { assert IsAlphabet(header[i]); }
        else if i > |header| { assert IsAlphabet(payload[i - |header| - 1]); }
      }
    }
    Ascii(s)
  }

  /** The envelope `build` serialises. As written the signature stays the bytes `sign`
      returns; otherwise it is base64url text, as section 7.2.2 of RFC 7515 has it. */
  function Envelope(header: string, payload: string, signature: seq<byte>, asWritten: bool): map<string, Value>
  {
    map["protected" := PyStr(header), "payload" := PyStr(payload),
        "signature" := if asWritten then PyBytes(signature) else PyStr(Encode(signature))]
  }

  /** `build`. `sign` is the ECDSA P-256 signature with SHA-256 of the signing input. */
  function Build(j: Jws, serialize: Value -> seq<byte>, sign: seq<byte> -> seq<byte>, asWritten: bool): (r: Result<seq<byte>>)
    ensures r.Ok? ==> Serializable(PyDict(CreateHeaders(j)))
    ensures r.Ok? ==> var header := Encode(serialize(PyDict(CreateHeaders(j))));
              var payload := PayloadSegment(j, serialize);
              payload.Ok? &&
              (EncodeIsUnpadded(serialize(PyDict(CreateHeaders(j))));
               r.value == serialize(PyDict(Envelope(header, payload.value, sign(SigningInput(header, payload.value)), asWritten))))
    ensures r.Err? ==> r.error == TypeError
  {
    var headerJson :- Dumps(PyDict(CreateHeaders(j)), serialize);
    EncodeIsUnpadded(headerJson);
    var header := Encode(headerJson);
    var payload :- PayloadSegment(j, serialize);
    var signature := sign(SigningInput(header, payload));
    Dumps(PyDict(Envelope(header, payload, signature, asWritten)), serialize)
  }

  /** As written, `build` always raises TypeError: the signature in the envelope is bytes. */
  lemma BuildAsWrittenFails(j: Jws, serialize: Value -> seq<byte>, sign: seq<byte> -> seq<byte>)
    ensures Build(j, serialize, sign, true) == Err(TypeError)
  {
    var h := CreateHeaders(j);
    if Serializable(PyDict(h)) {
      var headerJson := serialize(PyDict(h));
      EncodeIsUnpadded(headerJson);
      var header := Encode(headerJson);
      var payload := PayloadSegment(j, serialize);
      if payload.Ok? {
        var e := Envelope(header, payload.value, sign(SigningInput(header, payload.value)), true);
        assert !Serializable(PyDict(e)) by { assert "signature" in e && !Serializable(e["signature"]); }
        assert Dumps(PyDict(e), serialize) == Err(TypeError);
      }
    }
  }

  /** With the as-written `jwk`, the header is already refused. */
  lemma JwkAsWrittenHeaderFails(j: Jws)
    requires j.keyRef.JwkRef? && !Serializable(j.keyRef.jwk)
    ensures !Serializable(PyDict(CreateHeaders(j)))
  {
    assert CreateHeaders(j)["jwk"] == j.keyRef.jwk;
  }

  /** With base64url text for the key and the signature, a JWS whose payload `dumps` accepts,
      or bytes, builds; the header and payload segments are those of the signing input. */
  lemma BuildSucceeds(j: Jws, serialize: Value -> seq<byte>, sign: seq<byte> -> seq<byte>)
    requires Serializable(j.payload) || j.payload.PyBytes?
    requires j.keyRef.JwkRef? ==> Serializable(j.keyRef.jwk)
    requires j.keyRef.KidRef? ==> j.keyRef.kid == PyNone || IsStr(j.keyRef.kid)
    ensures Build(j, serialize, sign, false).Ok?
  {
    HeadersSerializable(j);
    var headerJson := serialize(PyDict(CreateHeaders(j)));
    EncodeIsUnpadded(headerJson);
    var header := Encode(headerJson);
    var payload := PayloadSegment(j, serialize);
    assert payload.Ok?;
    EnvelopeIsJson(header, payload.value, sign(SigningInput(header, payload.value)));
  }

  /** A header whose `jwk` `dumps` accepts, or whose `kid` is None or any string (the
      account's URL-class URL included), is accepted by `dumps`. */
  lemma HeadersSerializable(j: Jws)
    requires j.keyRef.JwkRef? ==> Serializable(j.keyRef.jwk)
    requires j.keyRef.KidRef? ==> j.keyRef.kid == PyNone || IsStr(j.keyRef.kid)
    ensures Serializable(PyDict(CreateHeaders(j)))
  {
    var h := CreateHeaders(j);
    assert forall k :: k in h ==> Serializable(h[k]);
  }

  lemma EnvelopeIsJson(header: string, payload: string, signature: seq<byte>)
    ensures IsJson(PyDict(Envelope(header, payload, signature, false)))
    ensures Serializable(PyDict(Envelope(header, payload, signature, false)))
  {
    var e := Envelope(header, payload, signature, false);
    assert forall k :: k in e ==> IsJson(e[k]);
    JsonIsSerializable(PyDict(e));
  }
}
