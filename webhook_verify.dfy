/**
 * The webhook signature gate (src/webhook/verify.js): a request passes only
 * if its `X-Webhook-Signature` header, read as hex, holds the HMAC-SHA256 of
 * the payload under the configured secret. HMAC-SHA256 and `JSON.stringify`
 * are library functions and enter the model as parameters; Node's hex coding
 * is written out.
 */
module WebhookVerify {
  import opened Wrappers
  import opened Js

  type byte = x: int | 0 <= x < 256

  /** An HMAC-SHA256 digest: always 32 bytes. */
  type Digest = s: seq<byte> | |s| == 32 witness seq(32, _ => 0)

  /** `crypto.createHmac('sha256', secret).update(payload).digest()`. */
  type Hmac = (string, string) -> Digest

  /**
   * `config.webhookSecret` (unset is `None`) and the two library functions;
   * `stringify` is `JSON.stringify` on the values it turns into a string.
   */
  datatype SigningConfig = SigningConfig(secret: Option<string>, hmac: Hmac, stringify: Json -> string)

  /** The parts of an HTTP request the gate reads: the header, `req.rawBody` and `req.body`. */
  datatype Request = Request(signature: Option<string>, rawBody: Option<string>, body: Json)

  /** The middleware's effect: call `next()`, or answer with a status and an error message. */
  datatype Gate = Next | Reject(status: int, error: string)

  const MissingSignature: string := "Missing webhook signature"
  const ConfigurationError: string := "Server configuration error"
  const InvalidSignature: string := "Invalid webhook signature"
  /** The answer of the application's error handler to an exception no route catches. */
  const InternalError: string := "Internal server error"

  /** A defined, non-empty string: the truthy case of an optional string. */
  predicate Present(o: Option<string>)
  {
    o.Some? && o.value != ""
  }

  predicate IsHexDigit(c: char)
  {
    ('0' <= c <= '9') || ('a' <= c <= 'f') || ('A' <= c <= 'F')
  }

  function HexValue(c: char): (v: nat)
    requires IsHexDigit(c)
    ensures v < 16
  {
    if '0' <= c <= '9' then c as int - '0' as int
    else if 'a' <= c <= 'f' then c as int - 'a' as int + 10
    else c as int - 'A' as int + 10
  }

  function HexChar(d: nat): (c: char)
    requires d < 16
    ensures IsHexDigit(c) && HexValue(c) == d
  {
    "0123456789abcdef"[d]
  }

  /** `digest('hex')`: two lower-case hex digits per byte. */
  function HexEncode(bytes: seq<byte>): (s: string)
    ensures |s| == 2 * |bytes|
  {
    if |bytes| == 0 then ""
    else [HexChar(bytes[0] / 16), HexChar(bytes[0] % 16)] + HexEncode(bytes[1..])
  }

  /**
   * `Buffer.from(s, 'hex')`: one byte per pair of hex digits, stopping at the
   * first pair that is not two hex digits; an odd last character is dropped.
   */
  function HexDecode(s: string): (bytes: seq<byte>)
    ensures 2 * |bytes| <= |s|
    decreases |s|
  {
    if |s| < 2 || !IsHexDigit(s[0]) || !IsHexDigit(s[1]) then []
    else [HexValue(s[0]) * 16 + HexValue(s[1])] + HexDecode(s[2..])
  }

  /** The string that is signed: `req.rawBody` if truthy, else the serialised body. */
  function SignedPayload(req: Request, stringify: Json -> string): string
  {
    if Present(req.rawBody) then req.rawBody.value else stringify(req.body)
  }

  /**
   * Whether there is a string to sign: `JSON.stringify(undefined)` is
   * `undefined`, and `update(undefined)` throws.
   */
  predicate PayloadDefined(req: Request)
  {
    Present(req.rawBody) || !req.body.Undefined?
  }

  /**
   * `verifySignature(req, res, next)`. An exception thrown while hashing
   * reaches the application's error handler, which answers 500.
   */
  function VerifySignature(req: Request, cfg: SigningConfig): (g: Gate)
    ensures g == Next ==> Present(req.signature) && Present(cfg.secret) && PayloadDefined(req)
                          && HexDecode(req.signature.value) == cfg.hmac(cfg.secret.value, SignedPayload(req, cfg.stringify))
    ensures g.Reject? ==> (g.status == 401 && g.error in {MissingSignature, InvalidSignature})
                          || (g.status == 500 && g.error in {ConfigurationError, InternalError})
  {
    if !Present(req.signature) then Reject(401, MissingSignature)
    else if !Present(cfg.secret) then Reject(500, ConfigurationError)
    else if !PayloadDefined(req) then Reject(500, InternalError)
    else
      var digest := cfg.hmac(cfg.secret.value, SignedPayload(req, cfg.stringify));
      HexRoundTrip(digest);
      var expected := HexEncode(digest);
      var received := HexDecode(req.signature.value);
      var expectedBytes := HexDecode(expected);
      if |received| != |expectedBytes| || received != expectedBytes then Reject(401, InvalidSignature)
      else Next
  }

  /**
   * `generateSignature(payload)`: the hex HMAC of a string payload as it is,
   * of any other payload serialised. `createHmac` throws for an unset secret,
   * and `update` throws for `undefined`, which `JSON.stringify` leaves as
   * `undefined` instead of turning it into a string.
   */
  function GenerateSignature(payload: Json, cfg: SigningConfig): (sig: Option<string>)
    ensures sig.Some? <==> cfg.secret.Some? && !payload.Undefined?
    ensures sig.Some? ==> (|sig.value| == 64
              && HexDecode(sig.value) == cfg.hmac(cfg.secret.value, if payload.Str? then payload.s else cfg.stringify(payload)))
  {
    match cfg.secret
    case None => None
    case Some(key) =>
      if payload.Undefined? then None
      else
      var text := if payload.Str? then payload.s else cfg.stringify(payload);
      HexRoundTrip(cfg.hmac(key, text));
      Some(HexEncode(cfg.hmac(key, text)))
  }

  /** Hex decoding undoes hex encoding. */
  lemma {:induction false} HexRoundTrip(bytes: seq<byte>)
    ensures HexDecode(HexEncode(bytes)) == bytes
  {
    if |bytes| > 0 {
      var s := HexEncode(bytes);
      HexRoundTrip(bytes[1..]);
      assert s[2..] == HexEncode(bytes[1..]);
      assert HexValue(s[0]) * 16 + HexValue(s[1]) == bytes[0];
    }
  }

  /** A missing or empty header is refused with 401 before the secret is even looked at. */
  lemma MissingSignatureFirst(req: Request, cfg: SigningConfig)
    requires !Present(req.signature)
    ensures VerifySignature(req, cfg) == Reject(401, MissingSignature)
  {
  }

  /** A signed request reaching a server without a secret gets 500, not 401. */
  lemma UnsetSecretIsServerError(req: Request, cfg: SigningConfig)
    requires Present(req.signature) && !Present(cfg.secret)
    ensures VerifySignature(req, cfg) == Reject(500, ConfigurationError)
  {
  }

  /**
   * With both present, `next()` is called exactly when there is a payload to
   * sign and the decoded header equals its digest. Without a payload hashing
   * throws and the answer is 500; every other request gets 401.
   */
  lemma AcceptExactlyMatchingDigest(req: Request, cfg: SigningConfig)
    requires Present(req.signature) && Present(cfg.secret)
    ensures VerifySignature(req, cfg) == Next
            <==> PayloadDefined(req)
                 && HexDecode(req.signature.value) == cfg.hmac(cfg.secret.value, SignedPayload(req, cfg.stringify))
    ensures !PayloadDefined(req) ==> VerifySignature(req, cfg) == Reject(500, InternalError)
    ensures PayloadDefined(req) && VerifySignature(req, cfg) != Next ==> VerifySignature(req, cfg) == Reject(401, InvalidSignature)
  {
    HexRoundTrip(cfg.hmac(cfg.secret.value, SignedPayload(req, cfg.stringify)));
  }

  /**
   * Round trip: a request whose header is `generateSignature(rawBody)` is
   * accepted when a secret is configured.
   */
  lemma GeneratedSignatureAccepted(raw: string, body: Json, cfg: SigningConfig)
    requires Present(cfg.secret) && raw != ""
    ensures GenerateSignature(Str(raw), cfg).Some?
    ensures VerifySignature(Request(GenerateSignature(Str(raw), cfg), Some(raw), body), cfg) == Next
  {
    var req := Request(GenerateSignature(Str(raw), cfg), Some(raw), body);
    assert |req.signature.value| == 64;
    AcceptExactlyMatchingDigest(req, cfg);
    HexRoundTrip(cfg.hmac(cfg.secret.value, raw));
  }

  /**
   * Without a raw body the parsed body is what is signed; a header made by
   * `generateSignature(body)` is accepted when the body is not a string.
   */
  lemma GeneratedSignatureAcceptedParsed(body: Json, cfg: SigningConfig)
    requires Present(cfg.secret) && !body.Str? && !body.Undefined?
    ensures GenerateSignature(body, cfg).Some?
    ensures VerifySignature(Request(GenerateSignature(body, cfg), None, body), cfg) == Next
  {
    var req := Request(GenerateSignature(body, cfg), None, body);
    assert |req.signature.value| == 64;
    AcceptExactlyMatchingDigest(req, cfg);
    HexRoundTrip(cfg.hmac(cfg.secret.value, cfg.stringify(body)));
  }

  /**
   * Replacing one hex digit inside the decoded part of a header by a digit of
   * another value changes exactly the byte it belongs to.
   */
  lemma {:induction false} HexDecodeDigitChange(s: string, k: nat, c: char)
    requires k / 2 < |HexDecode(s)|
    requires IsHexDigit(c) && IsHexDigit(s[k]) && HexValue(c) != HexValue(s[k])
    ensures |HexDecode(s[k := c])| == |HexDecode(s)|
    ensures HexDecode(s[k := c])[k / 2] != HexDecode(s)[k / 2]
    decreases |s|
  {
    var t := s[k := c];
    assert t[2..] == if k < 2 then s[2..] else s[2..][k - 2 := c];
    if k >= 2 {
      HexDecodeDigitChange(s[2..], k - 2, c);
    }
  }

  /**
   * Flipping one of the 64 hex digits of an accepted header to a digit of a
   * different value makes the request fail with 401.
   */
  lemma FlippedDigitRejected(req: Request, cfg: SigningConfig, k: nat, c: char)
    requires VerifySignature(req, cfg) == Next
    requires k < 64 && IsHexDigit(c)
    requires req.signature.Some? && k < |req.signature.value| && IsHexDigit(req.signature.value[k])
    requires HexValue(c) != HexValue(req.signature.value[k])
    ensures VerifySignature(Request(Some(req.signature.value[k := c]), req.rawBody, req.body), cfg)
            == Reject(401, InvalidSignature)
  {
    var sig := req.signature.value;
    var digest := cfg.hmac(cfg.secret.value, SignedPayload(req, cfg.stringify));
    AcceptExactlyMatchingDigest(req, cfg);
    HexDecodeDigitChange(sig, k, c);
    var req' := Request(Some(sig[k := c]), req.rawBody, req.body);
    assert sig[k := c] != "";
    AcceptExactlyMatchingDigest(req', cfg);
  }

  /** Decoding stops at a character that is not a hex digit: whatever follows it is ignored. */
  lemma {:induction false} HexDecodeStopsAtNonHex(s: string, t: string)
    requires t != "" && !IsHexDigit(t[0])
    ensures HexDecode(s + t) == HexDecode(s)
    decreases |s|
  {
    if |s| >= 2 {
      assert (s + t)[..2] == s[..2];
      if IsHexDigit(s[0]) && IsHexDigit(s[1]) {
        assert (s + t)[2..] == s[2..] + t;
        HexDecodeStopsAtNonHex(s[2..], t);
      }
    } else if |s| == 1 {
      assert (s + t)[1] == t[0];
    } else {
      assert s + t == t;
    }
  }

  /**
   * An accepted header stays accepted with any suffix that starts with a
   * non-hex character, because decoding stops there.
   */
  lemma AcceptedWithTrailingJunk(req: Request, cfg: SigningConfig, junk: string)
    requires VerifySignature(req, cfg) == Next
    requires junk != "" && !IsHexDigit(junk[0])
    ensures VerifySignature(Request(Some(req.signature.value + junk), req.rawBody, req.body), cfg) == Next
  {
    var sig := req.signature.value;
    HexDecodeStopsAtNonHex(sig, junk);
    AcceptExactlyMatchingDigest(req, cfg);
    AcceptExactlyMatchingDigest(Request(Some(sig + junk), req.rawBody, req.body), cfg);
  }
}
