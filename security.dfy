/** Security helpers: random hex tokens, message signing that leaves the `signature` field out,
    three-part expiring tokens, and the XOR keystream applied to payloads. The hash, HMAC, base64
    and UTF-8 primitives are parameters; the facts about them that the proofs use are collected
    in `WellBehaved`. */
module Security {
  import opened Wrappers
  import opened PyStr
  import opened Dicts
  import opened Json
  import opened Protocol

  type Bytes = seq<bv8>

  /** The library primitives the helpers call: UTF-8 `encode`/`decode` of text, `b64encode` (its
      ASCII text) and `b64decode`, HMAC-SHA256 and SHA-256 digests, and the text
      `str(sorted(d.items()))` of a dict. */
  datatype Primitives = Primitives(
    utf8Encode: string -> Bytes,
    utf8Decode: Bytes -> Option<string>,
    b64Encode: Bytes -> string,
    b64Decode: string -> Option<Bytes>,
    hmacSha256: (Bytes, Bytes) -> Bytes,
    sha256: Bytes -> Bytes,
    sortedItems: Object -> string)

  /** What the proofs rely on: UTF-8 and base64 decode what they encode, base64 text never holds
      a ':' and is non-empty for non-empty input, and both digests are 32 bytes long.
      Base64 text is also plain ASCII. */
  ghost predicate WellBehaved(p: Primitives) {
    && (forall s :: p.utf8Decode(p.utf8Encode(s)) == Some(s))
    && (forall b :: p.b64Decode(p.b64Encode(b)) == Some(b))
    && (forall b :: ':' !in p.b64Encode(b))
    && (forall b :: IsAscii(p.b64Encode(b)))
    && (forall b :: |b| > 0 ==> |p.b64Encode(b)| > 0)
    && (forall k, d :: |p.hmacSha256(k, d)| == 32)
    && (forall b :: |p.sha256(b)| == 32)
  }

  // ---------------------------------------------------------------- auth tokens

  predicate IsHexDigit(c: char) {
    '0' <= c <= '9' || 'a' <= c <= 'f'
  }

  /** The lower-case hex digit of a nibble. */
  function HexDigit(d: nat): (c: char)
    requires d < 16
    ensures IsHexDigit(c)
  {
    if d < 10 then ('0' as int + d) as char else ('a' as int + d - 10) as char
  }

  function HexValue(c: char): (v: nat)
    ensures v < 16
  {
    if '0' <= c <= '9' then c as nat - '0' as nat
    else if 'a' <= c <= 'f' then c as nat - 'a' as nat + 10
    else 0
  }

  /** Lower-case hex of a byte string, two digits per byte, high nibble first. */
  function Hex(bs: Bytes): (r: string)
    ensures |r| == 2 * |bs| && forall i :: 0 <= i < |r| ==> IsHexDigit(r[i])
  {
    if |bs| == 0 then ""
    else [HexDigit(bs[0] as int / 16), HexDigit(bs[0] as int % 16)] + Hex(bs[1..])
  }

  /** Reads lower-case hex back into bytes, two digits at a time. */
  function Unhex(s: string): Bytes
    decreases |s|
  {
    if |s| < 2 then [] else [(16 * HexValue(s[0]) + HexValue(s[1])) as bv8] + Unhex(s[2..])
  }

  lemma HexValueOfDigit(d: nat)
    requires d < 16
    ensures HexValue(HexDigit(d)) == d
  {
  }

  /** A byte is rebuilt from its two nibbles. */
  lemma ByteOfNibbles(b: bv8)
    ensures (16 * (b as int / 16) + b as int % 16) as bv8 == b
  {
  }

  /** Reading the hex of a byte string gives the bytes back. */
  lemma {:induction false} UnhexOfHex(bs: Bytes)
    ensures Unhex(Hex(bs)) == bs
  {
    if |bs| > 0 {
      var h := Hex(bs);
      var v := bs[0] as int;
      assert h == [HexDigit(v / 16), HexDigit(v % 16)] + Hex(bs[1..]);
      assert h[2..] == Hex(bs[1..]);
      HexValueOfDigit(v / 16);
      HexValueOfDigit(v % 16);
      ByteOfNibbles(bs[0]);
      assert Unhex(h) == [(16 * HexValue(h[0]) + HexValue(h[1])) as bv8] + Unhex(h[2..]);
      UnhexOfHex(bs[1..]);
    }
  }

  /** `generate_auth_token(length)`: `secrets.token_hex(length // 2)`, with the random bytes
      drawn from `random`; a negative byte count raises ValueError (Err). */
  function GenerateAuthToken(length: int, random: nat -> bv8): (r: Result<string>)
    ensures length >= 0 <==> r.Ok?
    ensures r.Ok? ==> |r.value| == 2 * (length / 2) && forall i :: 0 <= i < |r.value| ==> IsHexDigit(r.value[i])
    ensures r.Ok? ==> Unhex(r.value) == seq(length / 2, k requires 0 <= k => random(k))
  {
    // Dafny's `/` floors for a positive divisor, as Python's `//` does.
    var n := length / 2;
    if n < 0 then Err("negative argument not allowed")
    else
      var bytes := seq(n, k requires 0 <= k => random(k));
      UnhexOfHex(bytes);
      Ok(Hex(bytes))
  }

  // ---------------------------------------------------------------- signatures

  /** The dict that is signed: `to_dict()` without its `signature` entry. */
  function SignedFields(m: Message): (d: Object)
    ensures !HasKey(d, "signature")
    ensures d == ToDict(m.(signature := None))[..10]
  {
    var full := ToDict(m);
    RemoveKeys(full, "signature");
    assert full[10].0 == "signature";
    RemoveLast(full, "signature");
    Remove(full, "signature")
  }

  /** `Remove` of the key held by the last entry only, in a dict with distinct keys, drops that entry. */
  lemma {:induction false} RemoveLast(d: Object, k: string)
    requires DistinctKeys(d) && |d| > 0 && d[|d| - 1].0 == k
    ensures Remove(d, k) == d[..|d| - 1]
  {
    if |d| > 1 {
      assert d[0].0 != k;
      RemoveLast(d[1..], k);
      assert [d[0]] + d[1..][..|d| - 2] == d[..|d| - 1];
    }
  }

  /** `sign_message(message, key)`: base64 of the HMAC-SHA256 of the sorted items of the
      message's dict form without `signature`. */
  function SignMessage(m: Message, key: string, p: Primitives): string {
    p.b64Encode(p.hmacSha256(p.utf8Encode(key), p.utf8Encode(p.sortedItems(SignedFields(m)))))
  }

  /** Messages that differ only in their `signature` sign identically. */
  lemma SignIgnoresSignature(m: Message, s: Option<string>, key: string, p: Primitives)
    ensures SignMessage(m.(signature := s), key, p) == SignMessage(m, key, p)
  {
    assert m.(signature := s).(signature := None) == m.(signature := None);
  }

  predicate IsAscii(s: string) {
    forall i :: 0 <= i < |s| ==> s[i] as int < 128
  }

  /** `verify_signature(message, key)`: False without a (non-empty) signature, otherwise whether
      it equals the recomputed one. `hmac.compare_digest` refuses text that is not ASCII with a
      TypeError (Err). */
  function VerifySignature(m: Message, key: string, p: Primitives): (r: Result<bool>)
    requires WellBehaved(p)
    ensures (m.signature == None || m.signature == Some("")) ==> r == Ok(false)
    ensures r == Ok(true) <==> m.signature == Some(SignMessage(m, key, p))
    ensures r.Err? <==> m.signature.Some? && m.signature.value != "" && !IsAscii(m.signature.value)
  {
    if m.signature.None? || m.signature.value == "" then
      assert SignMessage(m, key, p) != "";
      Ok(false)
    else if !IsAscii(m.signature.value) then
      assert IsAscii(SignMessage(m, key, p));
      Err("TypeError")
    else Ok(m.signature.value == SignMessage(m, key, p))
  }

  /** A message carrying its own signature verifies under the same key. */
  lemma {:induction false} SignThenVerify(m: Message, key: string, p: Primitives)
    requires WellBehaved(p)
    ensures VerifySignature(m.(signature := Some(SignMessage(m, key, p))), key, p) == Ok(true)
  {
    SignIgnoresSignature(m, Some(SignMessage(m, key, p)), key, p);
  }

  // ---------------------------------------------------------------- expiring tokens

  /** The signature part of an expiring token over `data`. */
  function TokenSignature(data: string, key: string, p: Primitives): string {
    p.b64Encode(p.hmacSha256(p.utf8Encode(key), p.utf8Encode(data)))
  }

  /** `generate_expiring_token(user_id, key, expiry)` at time `now` (whole seconds):
      base64 of `"<user_id>:<now + expiry>:<signature>"`. */
  function GenerateExpiringToken(userId: string, key: string, expiry: int, now: int, p: Primitives): string {
    var data := userId + ":" + IntToString(now + expiry);
    p.b64Encode(p.utf8Encode(data + ":" + TokenSignature(data, key, p)))
  }

  /** `verify_expiring_token(token, key)` at time `now`: the user id when the token decodes to
      exactly three ':'-separated parts, its expiry is not before `now` and its signature
      matches; None on every failure, including the ones Python raises and catches. */
  function VerifyExpiringToken(token: string, key: string, now: int, p: Primitives): (r: Option<string>)
    ensures r.Some? ==> ':' !in r.value
  {
    var raw :- p.b64Decode(token);
    var decoded :- p.utf8Decode(raw);
    var parts := Split(decoded, ':');
    SplitPieces(decoded, ':');
    if |parts| != 3 then None
    else
      var expiry :- ParseInt(parts[1]);
      if expiry < now then None
      else if parts[2] != TokenSignature(parts[0] + ":" + parts[1], key, p) then None
      else Some(parts[0])
  }

  /** The text inside a freshly generated token splits back into its three parts. */
  lemma TokenParts(userId: string, key: string, expiry: int, now: int, p: Primitives)
    requires WellBehaved(p) && ':' !in userId
    ensures var data := userId + ":" + IntToString(now + expiry);
      var text := data + ":" + TokenSignature(data, key, p);
      p.b64Decode(GenerateExpiringToken(userId, key, expiry, now, p)) == Some(p.utf8Encode(text)) &&
      p.utf8Decode(p.utf8Encode(text)) == Some(text)
    ensures var data := userId + ":" + IntToString(now + expiry);
      Split(data + ":" + TokenSignature(data, key, p), ':') ==
        [userId, IntToString(now + expiry), TokenSignature(data, key, p)]
  {
    var t := IntToString(now + expiry);
    var data := userId + ":" + t;
    var sig := TokenSignature(data, key, p);
    assert forall k :: 0 <= k < |t| ==> t[k] != ':';
    assert data + ":" + sig == userId + [':'] + t + [':'] + sig;
    SplitThree(userId, t, sig, ':');
  }

  /** A token for a user id without ':' verifies as that user at any time up to and including its
      expiry second. */
  lemma ExpiringTokenRoundTrip(userId: string, key: string, expiry: int, issued: int, now: int, p: Primitives)
    requires WellBehaved(p) && ':' !in userId
    requires now <= issued + expiry
    ensures VerifyExpiringToken(GenerateExpiringToken(userId, key, expiry, issued, p), key, now, p) == Some(userId)
  {
    GeneratedTokenVerdict(userId, key, expiry, issued, now, p);
  }

  /** What verifying a generated token comes down to: only the expiry comparison is left. */
  lemma GeneratedTokenVerdict(userId: string, key: string, expiry: int, issued: int, now: int, p: Primitives)
    requires WellBehaved(p) && ':' !in userId
    ensures VerifyExpiringToken(GenerateExpiringToken(userId, key, expiry, issued, p), key, now, p) ==
            if issued + expiry < now then None else Some(userId)
  {
    var t := IntToString(issued + expiry);
    var data := userId + ":" + t;
    var sig := TokenSignature(data, key, p);
    var token := GenerateExpiringToken(userId, key, expiry, issued, p);
    var text := data + ":" + sig;
    TokenParts(userId, key, expiry, issued, p);
    IntToStringRoundTrip(issued + expiry);
    VerifyDecoded(token, key, now, p, p.utf8Encode(text), text, userId, t, sig, issued + expiry);
  }

  /** Verification of a token whose text splits into `[u, e, s]` with `e` reading as `x`. */
  lemma VerifyDecoded(token: string, key: string, now: int, p: Primitives,
                      raw: Bytes, decoded: string, u: string, e: string, s: string, x: int)
    requires p.b64Decode(token) == Some(raw) && p.utf8Decode(raw) == Some(decoded)
    requires Split(decoded, ':') == [u, e, s] && ParseInt(e) == Some(x)
    ensures VerifyExpiringToken(token, key, now, p) ==
            if x < now || s != TokenSignature(u + ":" + e, key, p) then None else Some(u)
  {
  }

  /** After its expiry second the same token is refused. */
  lemma ExpiredTokenRefused(userId: string, key: string, expiry: int, issued: int, now: int, p: Primitives)
    requires WellBehaved(p) && ':' !in userId
    requires now > issued + expiry
    ensures VerifyExpiringToken(GenerateExpiringToken(userId, key, expiry, issued, p), key, now, p) == None
  {
    GeneratedTokenVerdict(userId, key, expiry, issued, now, p);
  }

  /** A user id containing ':' makes the decoded text split into more than three parts, so its
      token never verifies. */
  lemma ColonInUserIdNeverVerifies(userId: string, key: string, expiry: int, issued: int, now: int, p: Primitives)
    requires WellBehaved(p) && ':' in userId
    ensures VerifyExpiringToken(GenerateExpiringToken(userId, key, expiry, issued, p), key, now, p) == None
  {
    var t := IntToString(issued + expiry);
    var data := userId + ":" + t;
    var sig := TokenSignature(data, key, p);
    var text := data + ":" + sig;
    TokenText(userId, key, expiry, issued, p);
    ColonsSplitWide(userId, t, sig);
    VerifyNotThree(GenerateExpiringToken(userId, key, expiry, issued, p), key, now, p, p.utf8Encode(text), text);
  }

  /** The text inside a generated token is what `generate_expiring_token` encoded. */
  lemma TokenText(userId: string, key: string, expiry: int, now: int, p: Primitives)
    requires WellBehaved(p)
    ensures var data := userId + ":" + IntToString(now + expiry);
      var text := data + ":" + TokenSignature(data, key, p);
      p.b64Decode(GenerateExpiringToken(userId, key, expiry, now, p)) == Some(p.utf8Encode(text)) &&
      p.utf8Decode(p.utf8Encode(text)) == Some(text)
  {
  }

  /** A decoded text that does not split into three parts is refused. */
  lemma VerifyNotThree(token: string, key: string, now: int, p: Primitives, raw: Bytes, decoded: string)
    requires p.b64Decode(token) == Some(raw) && p.utf8Decode(raw) == Some(decoded)
    requires |Split(decoded, ':')| != 3
    ensures VerifyExpiringToken(token, key, now, p) == None
  {
  }

  /** A ':' in the user id adds a fourth part to the token text. */
  lemma ColonsSplitWide(userId: string, t: string, sig: string)
    requires ':' in userId
    ensures |Split(userId + ":" + t + ":" + sig, ':')| > 3
  {
    var rest := ":" + (t + (":" + sig));
    assert userId + ":" + t + ":" + sig == userId + rest;
    CountAppend(userId, rest, ':');
    CountPositive(userId, ':');
    CountAppend(":", t + (":" + sig), ':');
    CountAppend(t, ":" + sig, ':');
    CountAppend(":", sig, ':');
    SplitLength(userId + rest, ':');
  }

  // ---------------------------------------------------------------- payload encryption

  /** The keystream transform: byte `i` XORed with byte `i mod |key|` of the key digest. */
  function Xored(data: Bytes, keyHash: Bytes): (r: Bytes)
    requires |keyHash| > 0
    ensures |r| == |data|
  {
    seq(|data|, i requires 0 <= i < |data| => data[i] ^ keyHash[i % |keyHash|])
  }

  /** Applying the transform twice with the same key restores the data. */
  lemma XoredInvolution(data: Bytes, keyHash: Bytes)
    requires |keyHash| > 0
    ensures Xored(Xored(data, keyHash), keyHash) == data
  {
    var once := Xored(data, keyHash);
    forall i | 0 <= i < |data|
      ensures Xored(once, keyHash)[i] == data[i]
    {
      var k := keyHash[i % |keyHash|];
      assert (data[i] ^ k) ^ k == data[i];
    }
  }

  /** The loop of `encrypt_payload` and `decrypt_payload`. */
  method XorTransform(data: Bytes, keyHash: Bytes) returns (out: Bytes)
    requires |keyHash| > 0
    ensures out == Xored(data, keyHash)
  {
    out := [];
    var i := 0;
    while i < |data|
      invariant 0 <= i <= |data|
      invariant out == Xored(data[..i], keyHash)
    {
      out := out + [data[i] ^ keyHash[i % |keyHash|]];
      i := i + 1;
    }
    assert data[..i] == data;
  }

  /** `encrypt_payload(payload, key)`: base64 of the UTF-8 of the payload's sorted items, XORed
      with the SHA-256 of the key. */
  method EncryptPayload(payload: Object, key: string, p: Primitives) returns (r: string)
    requires WellBehaved(p)
    ensures r == p.b64Encode(Xored(p.utf8Encode(p.sortedItems(payload)), p.sha256(p.utf8Encode(key))))
  {
    var keyHash := p.sha256(p.utf8Encode(key));
    var encrypted := XorTransform(p.utf8Encode(p.sortedItems(payload)), keyHash);
    r := p.b64Encode(encrypted);
  }

  /** `decrypt_payload(text, key)` up to the text it evaluates: undoes the base64 and the XOR and
      decodes UTF-8; a base64 or UTF-8 failure is raised (Err). Turning the text back into a dict
      with `ast.literal_eval` is not part of this model. */
  method DecryptText(encrypted: string, key: string, p: Primitives) returns (r: Result<string>)
    requires WellBehaved(p)
    ensures r.Ok? <==> p.b64Decode(encrypted).Some? &&
                       p.utf8Decode(Xored(p.b64Decode(encrypted).value, p.sha256(p.utf8Encode(key)))).Some?
    ensures r.Ok? ==> r.value == p.utf8Decode(Xored(p.b64Decode(encrypted).value, p.sha256(p.utf8Encode(key)))).value
  {
    var raw := p.b64Decode(encrypted);
    if raw.None? {
      return Err("binascii.Error");
    }
    var keyHash := p.sha256(p.utf8Encode(key));
    var decrypted := XorTransform(raw.value, keyHash);
    var text := p.utf8Decode(decrypted);
    if text.None? {
      return Err("UnicodeDecodeError");
    }
    r := Ok(text.value);
  }

  /** Decrypting what `encrypt_payload` produced gives back the payload's text. */
  lemma EncryptThenDecrypt(payload: Object, key: string, p: Primitives)
    requires WellBehaved(p)
    ensures var keyHash := p.sha256(p.utf8Encode(key));
      var encrypted := p.b64Encode(Xored(p.utf8Encode(p.sortedItems(payload)), keyHash));
      p.b64Decode(encrypted) == Some(Xored(p.utf8Encode(p.sortedItems(payload)), keyHash)) &&
      p.utf8Decode(Xored(p.b64Decode(encrypted).value, keyHash)) == Some(p.sortedItems(payload))
  {
    var keyHash := p.sha256(p.utf8Encode(key));
    XoredInvolution(p.utf8Encode(p.sortedItems(payload)), keyHash);
  }
}
