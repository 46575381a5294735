/**
 Detached signatures over evidence.  Ed25519 (section 5.1 of RFC 8032) is an ideal signature: its bytes are
 the record of who signed which message.  SHA-256 is injective: a digest stands for the bytes it was taken
 of.  The signed message is text, as the signer writes it.
 */
module EvidenceSigning {
  import opened Wrappers
  import opened Envelope
  import opened Rfc3339

  type KeyBytes = b: seq<Byte> | |b| == 32 witness seq(32, _ => 0)

  datatype PublicKey = PublicKey(bytes: KeyBytes)

  function Sha256(bytes: seq<Byte>): seq<Byte> { bytes }

  // ---- hexadecimal text ----

  function HexDigit(n: nat): (c: char)
    requires n < 16
    ensures IsHex(c)
  {
    if n < 10 then ('0' as int + n) as char else ('a' as int + n - 10) as char
  }

  predicate IsHex(c: char) { '0' <= c <= '9' || 'a' <= c <= 'f' }

  function Hex(bytes: seq<Byte>): (s: string)
    ensures |s| == 2 * |bytes| && forall c :: c in s ==> IsHex(c)
  {
    if bytes == [] then ""
    else [HexDigit(bytes[0] / 16), HexDigit(bytes[0] % 16)] + Hex(bytes[1..])
  }

  lemma {:induction false} HexInjective(x: seq<Byte>, y: seq<Byte>)
    requires Hex(x) == Hex(y)
    ensures x == y
    decreases |x|
  {
    assert |x| == |y|;
    if x != [] {
      assert Hex(x)[2..] == Hex(x[1..]) && Hex(y)[2..] == Hex(y[1..]);
      HexInjective(x[1..], y[1..]);
      assert Hex(x)[0] == HexDigit(x[0] / 16) && Hex(y)[0] == HexDigit(y[0] / 16);
      assert Hex(x)[1] == HexDigit(x[0] % 16) && Hex(y)[1] == HexDigit(y[0] % 16);
      assert x == [x[0]] + x[1..] && y == [y[0]] + y[1..];
    }
  }

  /** The fingerprint of a public key. */
  function KeyId(pub: PublicKey): string { Hex(Sha256(pub.bytes)) }

  lemma KeyIdInjective(p: PublicKey, q: PublicKey)
    requires KeyId(p) == KeyId(q)
    ensures p == q
  {
    HexInjective(p.bytes, q.bytes);
  }

  // ---- the signed message ----

  /** hex(sha256(pdf)) | signedAt in RFC3339Nano, UTC. */
  function SignedMessage(hexDigest: string, signedAt: nat): string { hexDigest + ("|" + UtcText(signedAt)) }

  /** The message binds document and time: it splits in one way, and both halves read back. */
  lemma MessageBinds(pdf: Doc, t: nat, other: Doc, u: nat)
    requires SignedMessage(Hex(Sha256(pdf)), t) == SignedMessage(Hex(Sha256(other)), u)
    ensures pdf == other && t == u
  {
    UniqueSplit(Hex(pdf), "|" + UtcText(t), Hex(other), "|" + UtcText(u), '|');
    assert ("|" + UtcText(t))[1..] == UtcText(t) && ("|" + UtcText(u))[1..] == UtcText(u);
    HexInjective(pdf, other);
    UtcTextInjective(t, u);
  }

  datatype SigBytes = SignedBy(signer: PublicKey, msg: string) | OtherBytes(bytes: seq<nat>)

  /** The text of a signature may fail to decode as base64. */
  datatype Value = Base64(sig: SigBytes) | Malformed

  datatype Signature = Signature(algorithm: string, publicKeyId: string, value: Value, pdfSha256: string, signedAt: nat)

  function Ed25519Sign(signer: PublicKey, msg: string): SigBytes { SignedBy(signer, msg) }

  predicate Ed25519Verify(pub: PublicKey, msg: string, sig: SigBytes) { sig == SignedBy(pub, msg) }

  /** `verifyKeys` maps a fingerprint to its key and always holds the active one. */
  datatype Signer = Signer(active: PublicKey, verifyKeys: map<string, PublicKey>) {
    predicate Valid() {
      && KeyId(active) in verifyKeys
      && forall id :: id in verifyKeys ==> KeyId(verifyKeys[id]) == id
    }
  }

  function Sign(active: PublicKey, pdf: Doc, signedAt: nat): Signature {
    var hexDigest := Hex(Sha256(pdf));
    Signature("ed25519", KeyId(active), Base64(Ed25519Sign(active, SignedMessage(hexDigest, signedAt))),
              hexDigest, signedAt)
  }

  /** The record is what the holder of the key makes of the document, up to the fingerprint it names. */
  predicate Genuine(pub: PublicKey, pdf: Doc, sig: Signature) {
    sig == Sign(pub, pdf, sig.signedAt).(publicKeyId := sig.publicKeyId)
  }

  datatype VerifyError = NoError | UnsupportedAlgorithm | DigestMismatch | NotBase64 | DoesNotVerify

  /** The server's checks in their order; together they accept exactly the genuine records. */
  method Verify(pub: PublicKey, pdf: Doc, sig: Signature) returns (err: VerifyError)
    ensures err == NoError <==> Genuine(pub, pdf, sig)
    ensures err == UnsupportedAlgorithm <==> sig.algorithm != "ed25519"
    ensures err == DigestMismatch <==> sig.algorithm == "ed25519" && Hex(Sha256(pdf)) != sig.pdfSha256
    ensures err == NotBase64 <==>
              sig.algorithm == "ed25519" && Hex(Sha256(pdf)) == sig.pdfSha256 && sig.value.Malformed?
  {
    if sig.algorithm != "ed25519" { return UnsupportedAlgorithm; }
    var hexDigest := Hex(Sha256(pdf));
    if hexDigest != sig.pdfSha256 { return DigestMismatch; }
    if sig.value.Malformed? { return NotBase64; }
    var msg := SignedMessage(hexDigest, sig.signedAt);
    if !Ed25519Verify(pub, msg, sig.value.sig) { return DoesNotVerify; }
    err := NoError;
  }

  /** A block of EVIDENCE_VERIFICATION_KEYS: an Ed25519 public key, or something else. */
  datatype Block = KeyBlock(pub: PublicKey) | BadBlock

  method NewSigner(active: PublicKey, blocks: seq<Block>) returns (s: Option<Signer>)
    ensures s.None? <==> BadBlock in blocks
    ensures s.Some? ==> s.value.Valid() && s.value.active == active
    ensures s.Some? ==> forall pub :: KeyId(pub) in s.value.verifyKeys <==> pub == active || KeyBlock(pub) in blocks
  {
    var keys: map<string, PublicKey> := map[KeyId(active) := active];
    forall pub | KeyId(pub) in keys ensures pub == active { KeyIdInjective(pub, active); }
    for i := 0 to |blocks|
      invariant BadBlock !in blocks[..i]
      invariant Signer(active, keys).Valid()
      invariant forall pub :: KeyId(pub) in keys <==> pub == active || KeyBlock(pub) in blocks[..i]
    {
      if blocks[i].BadBlock? { return None; }
      var added := blocks[i].pub;
      forall pub | KeyId(pub) == KeyId(added) ensures pub == added { KeyIdInjective(pub, added); }
      keys := keys[KeyId(added) := added];
    }
    assert blocks[..|blocks|] == blocks;
    s := Some(Signer(active, keys));
  }

  // ---- time ----

  function TruncateToMicros(t: nat): nat { t - t % 1000 }

  /** A TIMESTAMPTZ column keeps whole microseconds. */
  function ThroughColumn(t: nat): nat { (t / 1000) * 1000 }

  lemma WholeMicros(t: nat)
    ensures ThroughColumn(t) == t <==> t % 1000 == 0
    ensures ThroughColumn(TruncateToMicros(t)) == TruncateToMicros(t)
  {
    assert ThroughColumn(t) == t - t % 1000;
  }

  /** A record moved to another time is no longer genuine. */
  lemma RetimedGenuine(active: PublicKey, pdf: Doc, t: nat, u: nat)
    ensures Genuine(active, pdf, Sign(active, pdf, t).(signedAt := u)) <==> t == u
  {
    var moved := Sign(active, pdf, t).(signedAt := u);
    if Genuine(active, pdf, moved) {
      var x, y := SignedMessage(Hex(Sha256(pdf)), t), SignedMessage(Hex(Sha256(pdf)), u);
      assert moved.value == Base64(SignedBy(active, x)) && moved.value == Base64(SignedBy(active, y));
      MessageBinds(pdf, t, pdf, u);
    }
  }

  /** A signature survives the column exactly when it was made over whole microseconds, which is why
      Finalize truncates first. */
  lemma ColumnKeepsSignatureExactly(active: PublicKey, pdf: Doc, t: nat)
    ensures Genuine(active, pdf, Sign(active, pdf, t).(signedAt := ThroughColumn(t))) <==> t % 1000 == 0
    ensures ThroughColumn(TruncateToMicros(t)) == TruncateToMicros(t)
  {
    WholeMicros(t);
    RetimedGenuine(active, pdf, t, ThroughColumn(t));
  }

  // ---- the published key list ----

  /** The order of sort.Strings. */
  predicate Before(a: string, b: string) {
    b != "" && (a == "" || a[0] < b[0] || (a[0] == b[0] && Before(a[1..], b[1..])))
  }

  lemma {:induction false} BeforeTotal(a: string, b: string)
    ensures a == b || Before(a, b) || Before(b, a)
  {
    if a != "" && b != "" && a[0] == b[0] {
      BeforeTotal(a[1..], b[1..]);
      assert a == [a[0]] + a[1..] && b == [b[0]] + b[1..];
    }
  }

  lemma {:induction false} BeforeTrans(a: string, b: string, c: string)
    requires Before(a, b) && Before(b, c)
    ensures Before(a, c)
  {
    if a != "" && a[0] == b[0] == c[0] { BeforeTrans(a[1..], b[1..], c[1..]); }
  }

  predicate Ascending(ids: seq<string>) { forall i, j :: 0 <= i < j < |ids| ==> Before(ids[i], ids[j]) }

  function Elems(ids: seq<string>): set<string> { set x | x in ids }

  lemma ElemsAppend(ids: seq<string>, m: string)
    ensures Elems(ids + [m]) == Elems(ids) + {m}
  {
    assert forall x :: x in ids + [m] <==> x in ids || x == m;
  }

  method SortIds(ids: set<string>) returns (out: seq<string>)
    ensures Ascending(out) && Elems(out) == ids
  {
    out := [];
    var todo := ids;
    while todo != {}
      invariant Ascending(out) && todo <= ids && Elems(out) == ids - todo
      invariant forall i, y :: 0 <= i < |out| && y in todo ==> Before(out[i], y)
      decreases todo
    {
      var m := Least(todo);
      ElemsAppend(out, m);
      out, todo := out + [m], todo - {m};
    }
  }

  method Least(ids: set<string>) returns (m: string)
    requires ids != {}
    ensures m in ids && forall x :: x in ids && x != m ==> Before(m, x)
  {
    m :| m in ids;
    var todo := ids;
    while todo != {}
      invariant todo <= ids && m in ids
      invariant forall x :: x in ids && x !in todo && x != m ==> Before(m, x)
      decreases todo
    {
      var x :| x in todo;
      BeforeTotal(m, x);
      if Before(x, m) {
        forall y | y in ids && y !in todo && y != m ensures Before(x, y) { BeforeTrans(x, m, y); }
        m := x;
      }
      todo := todo - {x};
    }
  }

  /** The published document: the active key first, then every retired key in fingerprint order. */
  method AllPublicKeys(s: Signer) returns (pem: seq<Block>)
    requires s.Valid()
    ensures pem != [] && pem[0] == KeyBlock(s.active)
    ensures forall b :: b in pem ==> b.KeyBlock?
    ensures forall pub :: KeyBlock(pub) in pem <==> KeyId(pub) in s.verifyKeys
    ensures forall i, j :: 1 <= i < j < |pem| ==> Before(KeyId(pem[i].pub), KeyId(pem[j].pub))
  {
    var ids := SortIds(s.verifyKeys.Keys - {KeyId(s.active)});
    var ordered: seq<string> := [KeyId(s.active)] + ids;
    assert forall k :: 1 <= k < |ordered| ==> ordered[k] == ids[k - 1] && ids[k - 1] in Elems(ids);
    KeyIdInjective(s.verifyKeys[KeyId(s.active)], s.active);
    pem := [];
    for i := 0 to |ordered|
      invariant |pem| == i
      invariant forall k :: 0 <= k < i ==> pem[k] == KeyBlock(s.verifyKeys[ordered[k]])
    {
      pem := pem + [KeyBlock(s.verifyKeys[ordered[i]])];
    }
    assert forall k :: 0 <= k < |ids| ==> ordered[k + 1] == ids[k];
    forall pub ensures KeyBlock(pub) in pem <==> KeyId(pub) in s.verifyKeys { Listed(s, ids, pem, pub); }
  }

  /** A key is in the list exactly if its fingerprint is held. */
  lemma Listed(s: Signer, ids: seq<string>, pem: seq<Block>, pub: PublicKey)
    requires s.Valid() && Elems(ids) == s.verifyKeys.Keys - {KeyId(s.active)}
    requires |pem| == |ids| + 1 && pem[0] == KeyBlock(s.active)
    requires forall k :: 0 <= k < |ids| ==> ids[k] in s.verifyKeys && pem[k + 1] == KeyBlock(s.verifyKeys[ids[k]])
    ensures KeyBlock(pub) in pem <==> KeyId(pub) in s.verifyKeys
  {
    if KeyBlock(pub) in pem {
      var k :| 0 <= k < |pem| && pem[k] == KeyBlock(pub);
      if k > 0 { assert pem[k] == KeyBlock(s.verifyKeys[ids[k - 1]]); }
    }
    if KeyId(pub) in s.verifyKeys {
      KeyIdInjective(s.verifyKeys[KeyId(pub)], pub);
      if pub != s.active {
        if KeyId(pub) == KeyId(s.active) { KeyIdInjective(pub, s.active); }
        assert KeyId(pub) in Elems(ids);
        var k :| 0 <= k < |ids| && ids[k] == KeyId(pub);
        assert pem[k + 1] == KeyBlock(pub);
      }
    }
  }
}
