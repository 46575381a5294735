/**
 The standalone verifier: it shares no code with the server, only the primitives both take from the
 standard library (SHA-256, hexadecimal, base64, Ed25519, RFC 3339 times).
 */
module StandaloneVerifier {
  import opened Wrappers
  import opened Envelope
  import opened Rfc3339
  import opened EvidenceSigning

  /** The signature object of the API: times are texts. */
  datatype Wire = Wire(algorithm: string, publicKeyId: string, value: Value, pdfSha256: string,
                       signedAt: string, retainUntil: string)

  /** A signature file: the API's envelope, the bare object, or no such JSON. */
  datatype File = Wrapped(data: Wire) | Bare(sig: Wire) | Garbage

  /** The verifier's own record. */
  datatype Parsed = Parsed(algorithm: string, publicKeyId: string, value: Value, pdfSha256: string,
                           signedAt: nat, retainUntil: nat)

  /** The zero time of Go, 0001-01-01T00:00:00Z. */
  const ZERO_TIME: nat := 366 * 24 * 3600 * 1_000_000_000

  const ZERO: Parsed := Parsed("", "", Base64(OtherBytes([])), "", ZERO_TIME, ZERO_TIME)

  function Decode(w: Wire): Option<Parsed> {
    var at, until := Unmarshal(w.signedAt), Unmarshal(w.retainUntil);
    if at.None? || until.None? then None
    else Some(Parsed(w.algorithm, w.publicKeyId, w.value, w.pdfSha256, at.value, until.value))
  }

  lemma DecodeReads(w: Wire, at: nat, until: nat)
    requires Unmarshal(w.signedAt) == Some(at) && Unmarshal(w.retainUntil) == Some(until)
    ensures Decode(w) == Some(Parsed(w.algorithm, w.publicKeyId, w.value, w.pdfSha256, at, until))
  {
  }

  /** An envelope whose object does not decode is decoded again as a bare object, whose fields it lacks. */
  function ParseSignature(f: File): Option<Parsed> {
    match f
    case Wrapped(w) => if Decode(w).Some? then Decode(w) else Some(ZERO)
    case Bare(w) => Decode(w)
    case Garbage => None
  }

  /** The first block of the file. */
  function ParsePublicKey(pem: seq<Block>): Option<PublicKey> {
    if pem == [] || pem[0].BadBlock? then None else Some(pem[0].pub)
  }

  function Fingerprint(pub: PublicKey): string {
    var sum := Sha256(pub.bytes);
    Hex(sum)
  }

  datatype Failure = Algorithm | Digest | Encoding | Signed

  function Check(pub: PublicKey, pdf: Doc, sig: Parsed): Option<Failure> {
    var hexDigest := Hex(Sha256(pdf));
    if sig.algorithm != "ed25519" then Some(Algorithm)
    else if hexDigest != sig.pdfSha256 then Some(Digest)
    else if !sig.value.Base64? then Some(Encoding)
    else
      var msg := hexDigest + "|" + UtcText(sig.signedAt);
      if Ed25519Verify(pub, msg, sig.value.sig) then None else Some(Signed)
  }

  datatype ExitCode = Accept | Invalid | BadInput

  /** The whole command on readable files. */
  function Run(pem: seq<Block>, pdf: Doc, file: File): ExitCode {
    var sig, pub := ParseSignature(file), ParsePublicKey(pem);
    if sig.None? || pub.None? then BadInput
    else if Fingerprint(pub.value) != sig.value.publicKeyId then Invalid
    else if Check(pub.value, pdf, sig.value).Some? then Invalid
    else Accept
  }

  lemma CheckExactly(pub: PublicKey, pdf: Doc, sig: Parsed)
    ensures Check(pub, pdf, sig).None? <==>
              && sig.algorithm == "ed25519" && sig.pdfSha256 == Hex(Sha256(pdf))
              && sig.value == Base64(SignedBy(pub, SignedMessage(Hex(Sha256(pdf)), sig.signedAt)))
  {
    var hexDigest, time := Hex(Sha256(pdf)), UtcText(sig.signedAt);
    assert hexDigest + "|" + time == hexDigest + ("|" + time);
  }

  /** The server's record of a parsed file. */
  function Record(sig: Parsed): Signature {
    Signature(sig.algorithm, sig.publicKeyId, sig.value, sig.pdfSha256, sig.signedAt)
  }

  /** It accepts exactly if the first block is the key whose holder signed this document at the time the
      file gives, and the file says so. */
  lemma AcceptsExactly(pem: seq<Block>, pdf: Doc, file: File)
    ensures Run(pem, pdf, file) == Accept <==>
              && ParsePublicKey(pem).Some? && ParseSignature(file).Some?
              && var sig := ParseSignature(file).value;
                 Record(sig) == Sign(ParsePublicKey(pem).value, pdf, sig.signedAt)
    ensures Run(pem, pdf, file) == BadInput <==>
              pem == [] || pem[0].BadBlock? || file.Garbage? || (file.Bare? && Decode(file.sig).None?)
  {
    if ParsePublicKey(pem).Some? && ParseSignature(file).Some? {
      var pub, sig := ParsePublicKey(pem).value, ParseSignature(file).value;
      CheckExactly(pub, pdf, sig);
      assert Fingerprint(pub) == KeyId(pub);
    }
  }

  /** A file the verifier accepts gives its own two times in a form it can read. */
  lemma AcceptedFileDecodes(pem: seq<Block>, pdf: Doc, file: File)
    ensures Run(pem, pdf, file) == Accept ==>
              !file.Garbage? && Decode(if file.Wrapped? then file.data else file.sig) == ParseSignature(file)
  {
    if ParsePublicKey(pem).Some? { assert |Fingerprint(ParsePublicKey(pem).value)| == 64; }
  }
}
