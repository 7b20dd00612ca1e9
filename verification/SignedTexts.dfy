/**
 Texts signed as dot-separated base64url segments: the sealed device grant, which opens until it
 expires, and the compact JWS. JSON enters as a pair of functions that undo each other and the
 signature as a function of the signed text and the secret.
 */
module SignedTexts {
  import opened Wrappers
  import opened Base64Url

  /** `text.split(".")`. */
  function Split(text: string): (parts: seq<string>)
    ensures parts != []
  {
    if text == "" then [""]
    else
      var rest := Split(text[1..]);
      if text[0] == '.' then [""] + rest else [[text[0]] + rest[0]] + rest[1..]
  }

  lemma {:induction false} SplitPlain(text: string)
    requires '.' !in text
    ensures Split(text) == [text]
  {
    if text != "" {
      SplitPlain(text[1..]);
      assert text == [text[0]] + text[1..];
    }
  }

  lemma {:induction false} SplitFirst(first: string, rest: string)
    requires '.' !in first
    ensures Split(first + "." + rest) == [first] + Split(rest)
  {
    if first == "" {
      assert "" + "." + rest == ['.'] + rest;
    } else {
      SplitFirst(first[1..], rest);
      assert (first + "." + rest)[1..] == first[1..] + "." + rest;
      assert first == [first[0]] + first[1..];
    }
  }

  // ---------- the sealed device grant ----------

  datatype Authorization = NoAuthorization | Wide | PatManagement

  datatype Grant = Grant(deviceCode: string, selector: Option<string>, expiresAt: int, authorization: Authorization)

  /** JSON text of a grant, as bytes; reading fails on anything that is not a grant. */
  datatype GrantJson = GrantJson(write: Grant -> seq<Byte>, read: seq<Byte> -> Option<Grant>)

  ghost predicate Lossless(json: GrantJson) {
    forall g :: json.read(json.write(g)) == Some(g) && json.write(g) != []
  }

  /** The signature bytes of a text under a secret. */
  datatype Signer = Signer(sign: (string, string) -> seq<Byte>)

  ghost predicate Signs(s: Signer) {
    forall text, secret :: s.sign(text, secret) != []
  }

  function Seal(json: GrantJson, s: Signer, g: Grant, secret: string): string {
    var payload := Encode(json.write(g));
    payload + "." + Encode(s.sign(payload, secret))
  }

  /** Compares every byte; only the lengths may end it early. */
  method SignatureValid(s: Signer, payload: string, signature: string, secret: string) returns (valid: bool)
    ensures valid <==> DecodePadded(signature) == Some(s.sign(payload, secret))
  {
    var expected := s.sign(payload, secret);
    var decoded := DecodePadded(signature);
    if decoded.None? || |decoded.value| != |expected| {
      return false;
    }
    var actual := decoded.value;
    var difference := false;
    for i := 0 to |expected|
      invariant difference <==> actual[..i] != expected[..i]
    {
      assert actual[..i + 1] == actual[..i] + [actual[i]] && expected[..i + 1] == expected[..i] + [expected[i]];
      difference := difference || expected[i] != actual[i];
    }
    assert actual[..|expected|] == actual && expected[..|expected|] == expected;
    return !difference;
  }

  /** A third segment is refused unless it is empty; later ones are not looked at. */
  function Open(json: GrantJson, s: Signer, value: string, secret: string, nowMs: int): Option<Grant> {
    var parts := Split(value);
    if parts[0] == "" || |parts| < 2 || parts[1] == "" || (|parts| > 2 && parts[2] != "") then None
    else if DecodePadded(parts[1]) != Some(s.sign(parts[0], secret)) then None
    else match DecodePadded(parts[0])
      case None => None
      case Some(bytes) =>
        match json.read(bytes)
        case None => None
        case Some(g) => if g.expiresAt <= nowMs then None else Some(g)
  }

  /** A sealed grant opens to itself until the moment it expires, and never after. */
  lemma SealedGrantOpens(json: GrantJson, s: Signer, g: Grant, secret: string, nowMs: int)
    requires Lossless(json) && Signs(s)
    ensures Open(json, s, Seal(json, s, g, secret), secret, nowMs) == if nowMs < g.expiresAt then Some(g) else None
  {
    var payload := Encode(json.write(g));
    var mac := s.sign(payload, secret);
    EncodedTextIsPlain(json.write(g));
    EncodedTextIsPlain(mac);
    SplitFirst(payload, Encode(mac));
    SplitPlain(Encode(mac));
    DecodeInvertsEncode(mac);
    DecodeInvertsEncode(json.write(g));
  }

  /** What opens was signed under the secret, says what was signed, and has not expired. */
  lemma OpenedGrantWasSigned(json: GrantJson, s: Signer, value: string, secret: string, nowMs: int)
    requires Open(json, s, value, secret, nowMs).Some?
    ensures exists payload, signature ::
      && payload in Split(value) && signature in Split(value)
      && DecodePadded(signature) == Some(s.sign(payload, secret))
      && DecodePadded(payload).Some?
      && json.read(DecodePadded(payload).value) == Open(json, s, value, secret, nowMs)
      && nowMs < Open(json, s, value, secret, nowMs).value.expiresAt
  {
    var parts := Split(value);
    assert parts[0] in parts && parts[1] in parts;
  }

  // ---------- the compact JWS ----------

  datatype Jws = Jws(header: seq<Byte>, payload: seq<Byte>, signingInput: string, signature: seq<Byte>)

  function Sign(s: Signer, header: seq<Byte>, payload: seq<Byte>, secret: string): string {
    var signingInput := Encode(header) + "." + Encode(payload);
    signingInput + "." + Encode(s.sign(signingInput, secret))
  }

  /** Exactly three segments, each strict base64url. */
  function DecodeJws(token: string): Option<Jws> {
    var parts := Split(token);
    if |parts| != 3 then None
    else match (DecodeStrict(parts[0]), DecodeStrict(parts[1]), DecodeStrict(parts[2]))
      case (Some(header), Some(payload), Some(signature)) =>
        Some(Jws(header, payload, parts[0] + "." + parts[1], signature))
      case _ => None
  }

  lemma ThreeSegments(a: string, b: string, c: string)
    requires '.' !in a && '.' !in b && '.' !in c
    ensures Split(a + "." + b + "." + c) == [a, b, c]
  {
    assert a + "." + b + "." + c == a + "." + (b + "." + c);
    SplitFirst(a, b + "." + c);
    SplitFirst(b, c);
    SplitPlain(c);
  }

  /** A signed token decodes to its header, its claims and a signature over exactly the signed text. */
  lemma SignedTokenDecodes(s: Signer, header: seq<Byte>, payload: seq<Byte>, secret: string)
    requires Signs(s) && header != [] && payload != []
    ensures var signingInput := Encode(header) + "." + Encode(payload);
      DecodeJws(Sign(s, header, payload, secret)) == Some(Jws(header, payload, signingInput, s.sign(signingInput, secret)))
  {
    var mac := s.sign(Encode(header) + "." + Encode(payload), secret);
    EncodedTextIsPlain(header);
    EncodedTextIsPlain(payload);
    EncodedTextIsPlain(mac);
    ThreeSegments(Encode(header), Encode(payload), Encode(mac));
    DecodeInvertsEncode(header);
    DecodeInvertsEncode(payload);
    DecodeInvertsEncode(mac);
  }
}
