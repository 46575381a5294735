/**
 The evidence service: sign, encrypt, store and record; later read back, decrypt and verify.
 A server is a signer and a cipher; a rotation replaces the server and keeps the tables.
 */
module EvidenceService {
  import opened Wrappers
  import opened Runs
  import opened Envelope
  import opened EvidenceCipher
  import opened EvidenceSigning
  import opened Rfc3339
  import StandaloneVerifier
  import KeyHistory

  /** A row of evidence_signatures. */
  datatype SignatureRow = SignatureRow(sig: Signature, retainUntil: nat)

  const RETENTION: nat := 7 * 365 * 24 * 3600 * 1_000_000_000

  datatype Reason = NotHeld | Unreadable | CryptoShredded | Undecryptable | BadSignature

  datatype VerifyResult = Unsigned | Valid | NotValid(reason: Reason)

  /** The row Finalize records for a document signed at `now`. */
  function SignedRow(signer: Signer, pdf: Doc, now: nat): SignatureRow {
    var at := TruncateToMicros(now);
    SignatureRow(Sign(signer.active, pdf, at), at + RETENTION)
  }

  /** A signature row as read back from its columns. */
  function ReadBack(row: SignatureRow): SignatureRow {
    SignatureRow(row.sig.(signedAt := ThroughColumn(row.sig.signedAt)), ThroughColumn(row.retainUntil))
  }

  /** The plaintext a blob opens to for an account under a keyring, given its key row. */
  function Plaintext(ring: Ring, rows: map<Account, Blob>, a: Account, blob: Blob): Option<Plain> {
    if a !in rows then None
    else
      var raw := Unwrap(ring, a, rows[a]);
      if raw.None? || raw.value.Document? then None else OpenAAD(Data(raw.value.dek), blob, NoAad)
  }

  /** What Verify answers, in the order it looks. */
  function Decision(signer: Signer, ring: Ring, rows: map<Account, Blob>, a: Account,
                    row: Option<SignatureRow>, blob: Option<Blob>): VerifyResult
  {
    if row.None? then Unsigned
    else
      var sig := ReadBack(row.value).sig;
      if sig.publicKeyId !in signer.verifyKeys then NotValid(NotHeld)
      else if blob.None? then NotValid(Unreadable)
      else if a !in rows then NotValid(CryptoShredded)
      else
        var plain := Plaintext(ring, rows, a, blob.value);
        if plain.None? || plain.value.RawKey? then NotValid(Undecryptable)
        else if Genuine(signer.verifyKeys[sig.publicKeyId], plain.value.doc, sig) then Valid
        else NotValid(BadSignature)
  }

  /** The evidence can be opened: the account has a key row wrapped for it under a configured master key, and
      the object is a document sealed under that key. */
  predicate Readable(ring: Ring, rows: map<Account, Blob>, a: Account, blob: Blob) {
    && a in rows && OpenedBy([ring.active] + ring.retired, a, rows[a]) && rows[a].plain.RawKey?
    && blob.Sealed? && blob.key == Data(rows[a].plain.dek) && blob.aad == NoAad && blob.plain.Document?
  }

  lemma PlaintextExactly(ring: Ring, rows: map<Account, Blob>, a: Account, blob: Blob)
    ensures var plain := Plaintext(ring, rows, a, blob);
            && (plain.Some? && plain.value.Document? <==> Readable(ring, rows, a, blob))
            && (plain.Some? ==> blob.Sealed? && plain.value == blob.plain)
  {
    if a in rows { UnwrapExact(ring, a, rows[a]); }
  }

  /** The recorded signature with its time as the column gives it back. */
  function Recorded(row: SignatureRow): Signature {
    row.sig.(signedAt := row.sig.signedAt / 1000 * 1000)
  }

  /** Every answer of Verify and exactly when it is given. */
  predicate Answers(r: VerifyResult, signer: Signer, ring: Ring, rows: map<Account, Blob>, a: Account,
                    row: Option<SignatureRow>, blob: Option<Blob>)
  {
    var held := row.Some? && row.value.sig.publicKeyId in signer.verifyKeys;
    var readable := blob.Some? && Readable(ring, rows, a, blob.value);
    && (r == Unsigned <==> row.None?)
    && (r == NotValid(NotHeld) <==> row.Some? && !held)
    && (r == NotValid(Unreadable) <==> held && blob.None?)
    && (r == NotValid(CryptoShredded) <==> held && blob.Some? && a !in rows)
    && (r == NotValid(Undecryptable) <==> held && blob.Some? && a in rows && !readable)
    && (r == Valid <==>
          held && readable
          && Genuine(signer.verifyKeys[row.value.sig.publicKeyId], blob.value.plain.doc, Recorded(row.value)))
  }

  lemma DecisionExactly(signer: Signer, ring: Ring, rows: map<Account, Blob>, a: Account,
                        row: Option<SignatureRow>, blob: Option<Blob>)
    ensures Answers(Decision(signer, ring, rows, a, row, blob), signer, ring, rows, a, row, blob)
  {
    if blob.Some? { PlaintextExactly(ring, rows, a, blob.value); }
  }

  class Service {
    const signer: Signer
    const cipher: Cipher
    var objects: map<nat, Blob>
    var signatures: map<nat, SignatureRow>

    constructor (signer: Signer, cipher: Cipher, objects: map<nat, Blob>, signatures: map<nat, SignatureRow>)
      ensures this.signer == signer && this.cipher == cipher
      ensures this.objects == objects && this.signatures == signatures
    {
      this.signer, this.cipher, this.objects, this.signatures := signer, cipher, objects, signatures;
    }

    /** Signs the plaintext, stores the ciphertext, then records the signature; `rewrapOk`,
        `putOk` and `recordOk` say whether the writes succeed.  The storage key is the drill id. */
    method Finalize(drill: nat, a: Account, pdf: Doc, now: nat, rewrapOk: bool, putOk: bool, recordOk: bool)
      returns (ok: bool)
      modifies this, cipher
      ensures ok ==>
                && drill in objects
                && Plaintext(cipher.ring, cipher.rows, a, objects[drill]) == Some(Document(pdf))
                && signatures == old(signatures)[drill := SignedRow(signer, pdf, now)]
      ensures ok <==> putOk && recordOk
                      && (a in old(cipher.rows) ==>
                            && OpenedBy([cipher.ring.active] + cipher.ring.retired, a, old(cipher.rows)[a])
                            && old(cipher.rows)[a].plain.RawKey?)
      ensures ok ==> signatures[drill].retainUntil == signatures[drill].sig.signedAt + 7 * 365 * 24 * 3600 * 1_000_000_000
      ensures !ok ==> signatures == old(signatures)
      ensures !putOk ==> objects == old(objects)
      ensures forall d :: d != drill && d in old(objects) ==> d in objects && objects[d] == old(objects)[d]
      ensures forall b :: b in old(cipher.rows) ==>
                b in cipher.rows && Unwrap(cipher.ring, b, cipher.rows[b]) == Unwrap(cipher.ring, b, old(cipher.rows)[b])
    {
      var at := TruncateToMicros(now);
      var sig := Sign(signer.active, pdf, at);
      if a in cipher.rows { UnwrapExact(cipher.ring, a, cipher.rows[a]); }
      var blob := cipher.Encrypt(a, pdf, rewrapOk);
      if !blob.Ok? || !putOk { return false; }
      objects := objects[drill := blob.value];
      if !recordOk { return false; }
      signatures := signatures[drill := SignatureRow(sig, at + RETENTION)];
      ok := true;
    }

    /** Re-reads the evidence and checks it against the recorded signature. */
    method Verify(drill: nat, a: Account, rewrapOk: bool) returns (r: VerifyResult)
      modifies cipher
      ensures Answers(r, signer, cipher.ring, old(cipher.rows), a,
                      if drill in signatures then Some(signatures[drill]) else None,
                      if drill in objects then Some(objects[drill]) else None)
      ensures r == Decision(signer, cipher.ring, old(cipher.rows), a,
                            if drill in signatures then Some(signatures[drill]) else None,
                            if drill in objects then Some(objects[drill]) else None)
    {
      DecisionExactly(signer, cipher.ring, cipher.rows, a,
                      if drill in signatures then Some(signatures[drill]) else None,
                      if drill in objects then Some(objects[drill]) else None);
      if drill !in signatures { return Unsigned; }
      var rec := ReadBack(signatures[drill]);
      if rec.sig.publicKeyId !in signer.verifyKeys { return NotValid(NotHeld); }
      if drill !in objects { return NotValid(Unreadable); }
      var pdf := cipher.Decrypt(a, objects[drill], rewrapOk);
      if pdf.Shredded? { return NotValid(CryptoShredded); }
      if !pdf.Ok? || pdf.value.RawKey? { return NotValid(Undecryptable); }
      var err := EvidenceSigning.Verify(signer.verifyKeys[rec.sig.publicKeyId], pdf.value.doc, rec.sig);
      r := if err == NoError then Valid else NotValid(BadSignature);
    }
  }

  // ---- across rotations ----

  /** What Finalize records survives its columns unchanged. */
  lemma RowSurvivesColumns(signer: Signer, pdf: Doc, now: nat)
    ensures ReadBack(SignedRow(signer, pdf, now)) == SignedRow(signer, pdf, now)
  {
    var at := TruncateToMicros(now);
    WholeMicros(now);
    assert at % 1000 == 0 && (at + RETENTION) % 1000 == 0;
    WholeMicros(at + RETENTION);
  }

  /** Evidence finalised by one server still verifies on any later one, after any history of mints,
      re-wraps and rotations, as long as that server holds the signing public key and the master key
      the account's row is then wrapped under. */
  lemma EvidenceStaysValid(acts: seq<KeyHistory.Action>, more: seq<KeyHistory.Action>,
                           a: Account, pdf: Doc, blob: Blob, now: nat,
                           first: Signer, later: Signer, ring: Ring)
    requires KeyHistory.Entry(a, pdf, blob) in KeyHistory.Exec(KeyHistory.EMPTY, acts).log
    requires later.Valid() && KeyId(first.active) in later.verifyKeys
    ensures var rows := KeyHistory.Exec(KeyHistory.EMPTY, acts + more).rows;
            && a in rows && rows[a].Sealed? && rows[a].key.Master?
            && (rows[a].key.id in [ring.active] + ring.retired ==>
                  Decision(later, ring, rows, a, Some(SignedRow(first, pdf, now)), Some(blob)) == Valid)
  {
    var s := KeyHistory.Exec(KeyHistory.EMPTY, acts);
    KeyHistory.ExecKeeps(KeyHistory.EMPTY, acts);
    FoldSplit(KeyHistory.Step, KeyHistory.EMPTY, acts, more);
    KeyHistory.ExecKeeps(s, more);
    var t := KeyHistory.Exec(KeyHistory.EMPTY, acts + more);
    assert KeyHistory.EntryOk(s.deks, KeyHistory.Entry(a, pdf, blob));
    assert KeyHistory.Wraps(t.deks, a, t.rows[a]);
    UnwrapExact(ring, a, t.rows[a]);
    RowSurvivesColumns(first, pdf, now);
    KeyIdInjective(later.verifyKeys[KeyId(first.active)], first.active);
  }

  // ---- the standalone verifier ----

  /** The signature object GET /v1/drills/{id}/signature serves, its times written in the zones the server
      happens to hold them in; a year JSON cannot carry fails the request. */
  function Serve(row: SignatureRow, zoneAt: int, zoneUntil: int): Option<StandaloneVerifier.Wire> {
    var rec := ReadBack(row);
    var at, until := Marshal(rec.sig.signedAt, zoneAt), Marshal(rec.retainUntil, zoneUntil);
    if at.None? || until.None? then None
    else Some(StandaloneVerifier.Wire(rec.sig.algorithm, rec.sig.publicKeyId, rec.sig.value, rec.sig.pdfSha256,
                                      at.value, until.value))
  }

  predicate Zone(zone: int) { -1440 < zone < 1440 }

  /** The file is what was served, with or without its envelope. */
  predicate Served(file: StandaloneVerifier.File, row: SignatureRow, zoneAt: int, zoneUntil: int) {
    && Zone(zoneAt) && Zone(zoneUntil)
    && Serve(row, zoneAt, zoneUntil).Some?
    && (file == StandaloneVerifier.Wrapped(Serve(row, zoneAt, zoneUntil).value)
        || file == StandaloneVerifier.Bare(Serve(row, zoneAt, zoneUntil).value))
  }

  /** Through JSON, zones and the verifier's own parser, the record arrives as the server holds it. */
  lemma ServedRecord(file: StandaloneVerifier.File, row: SignatureRow, zoneAt: int, zoneUntil: int)
    ensures Served(file, row, zoneAt, zoneUntil) ==>
              var sig := StandaloneVerifier.ParseSignature(file);
              && sig.Some? && StandaloneVerifier.Record(sig.value) == ReadBack(row).sig
              && sig.value.retainUntil == ReadBack(row).retainUntil
  {
    if Served(file, row, zoneAt, zoneUntil) {
      var rec, w := ReadBack(row), Serve(row, zoneAt, zoneUntil).value;
      UnmarshalMarshal(rec.sig.signedAt, zoneAt);
      UnmarshalMarshal(rec.retainUntil, zoneUntil);
      StandaloneVerifier.DecodeReads(w, rec.sig.signedAt, rec.retainUntil);
    }
  }

  lemma StandaloneAccepts(key: PublicKey, pem: seq<Block>, doc: Doc, file: StandaloneVerifier.File,
                          row: SignatureRow, zoneAt: int, zoneUntil: int)
    requires pem != [] && pem[0] == KeyBlock(key)
    ensures Served(file, row, zoneAt, zoneUntil) ==>
              (StandaloneVerifier.Run(pem, doc, file) == StandaloneVerifier.Accept <==>
                 ReadBack(row).sig.publicKeyId == KeyId(key) && Genuine(key, doc, ReadBack(row).sig))
  {
    ServedRecord(file, row, zoneAt, zoneUntil);
    StandaloneVerifier.AcceptsExactly(pem, doc, file);
  }

  /** The server and the standalone verifier agree.  Whatever is stored, and for every signature file the
      server serves, it says Valid exactly when there is a row and an object, it holds the key, can open the
      evidence, and the standalone verifier, given that key and that file, accepts the document. */
  lemma ServerAndVerifierAgree(signer: Signer, ring: Ring, rows: map<Account, Blob>, a: Account,
                               row: Option<SignatureRow>, blob: Option<Blob>,
                               file: StandaloneVerifier.File, zoneAt: int, zoneUntil: int)
    ensures signer.Valid() && (row.Some? ==> Served(file, row.value, zoneAt, zoneUntil)) ==>
              (Decision(signer, ring, rows, a, row, blob) == Valid <==>
                && row.Some? && blob.Some? && Readable(ring, rows, a, blob.value)
                && row.value.sig.publicKeyId in signer.verifyKeys
                && StandaloneVerifier.Run([KeyBlock(signer.verifyKeys[row.value.sig.publicKeyId])],
                                          blob.value.plain.doc, file) == StandaloneVerifier.Accept)
  {
    DecisionExactly(signer, ring, rows, a, row, blob);
    if signer.Valid() && row.Some? && blob.Some? && Readable(ring, rows, a, blob.value)
       && row.value.sig.publicKeyId in signer.verifyKeys {
      var key := signer.verifyKeys[row.value.sig.publicKeyId];
      StandaloneAccepts(key, [KeyBlock(key)], blob.value.plain.doc, file, row.value, zoneAt, zoneUntil);
    }
  }

  /** Given the whole published list, the standalone verifier accepts exactly the readable evidence that is
      Valid and names the active key; for a retired key its own block has to be picked out. */
  lemma PublishedListWorksForActiveKey(signer: Signer, pem: seq<Block>, ring: Ring, rows: map<Account, Blob>,
                                       a: Account, row: SignatureRow, blob: Blob,
                                       file: StandaloneVerifier.File, zoneAt: int, zoneUntil: int)
    requires signer.Valid() && pem != [] && pem[0] == KeyBlock(signer.active)
    ensures Served(file, row, zoneAt, zoneUntil) && Readable(ring, rows, a, blob) ==>
              (StandaloneVerifier.Run(pem, blob.plain.doc, file) == StandaloneVerifier.Accept <==>
                 && row.sig.publicKeyId == KeyId(signer.active)
                 && Decision(signer, ring, rows, a, Some(row), Some(blob)) == Valid)
  {
    DecisionExactly(signer, ring, rows, a, Some(row), Some(blob));
    if Readable(ring, rows, a, blob) {
      StandaloneAccepts(signer.active, pem, blob.plain.doc, file, row, zoneAt, zoneUntil);
      KeyIdInjective(signer.verifyKeys[KeyId(signer.active)], signer.active);
    }
  }

  /** The messages the holder of a key has signed, each over a document and a time. */
  predicate OnlySigned(sig: SigBytes, pub: PublicKey, log: set<(Doc, nat)>) {
    sig.SignedBy? && sig.signer == pub ==>
      exists e :: e in log && sig.msg == SignedMessage(Hex(Sha256(e.0)), e.1)
  }

  /** If the holder of the key a row names signed nothing but the documents and times in `log`, then
      evidence is Valid only if its decrypted document was signed, at the very time the row gives. */
  lemma ValidMeansSigned(signer: Signer, ring: Ring, rows: map<Account, Blob>, a: Account,
                         row: Option<SignatureRow>, blob: Option<Blob>, log: set<(Doc, nat)>)
    ensures Decision(signer, ring, rows, a, row, blob) == Valid ==>
              && row.Some? && blob.Some? && Readable(ring, rows, a, blob.value)
              && row.value.sig.publicKeyId in signer.verifyKeys && row.value.sig.value.Base64?
              && (OnlySigned(row.value.sig.value.sig, signer.verifyKeys[row.value.sig.publicKeyId], log) ==>
                    (blob.value.plain.doc, Recorded(row.value).signedAt) in log)
  {
    DecisionExactly(signer, ring, rows, a, row, blob);
    if Decision(signer, ring, rows, a, row, blob) == Valid {
      var sig, doc := Recorded(row.value), blob.value.plain.doc;
      var key, msg := signer.verifyKeys[sig.publicKeyId], SignedMessage(Hex(Sha256(doc)), sig.signedAt);
      assert sig.value == Base64(SignedBy(key, msg));
      if OnlySigned(sig.value.sig, key, log) {
        var e :| e in log && msg == SignedMessage(Hex(Sha256(e.0)), e.1);
        MessageBinds(doc, sig.signedAt, e.0, e.1);
      }
    }
  }
}
