/**
 Envelope encryption, symbolically.  AES-256-GCM (sections 7.1 and 7.2 of NIST SP 800-38D) is ideal: a
 ciphertext is the record of how it was made, and it opens only under the same key and the same
 additional authenticated data.
 */
module Envelope {
  import opened Wrappers

  type Account = nat
  type Byte = b: nat | b < 256
  type Doc = seq<Byte>

  /** Master keys and data-encryption keys are drawn independently, so they never coincide. */
  datatype Key = Master(id: nat) | Data(dek: nat)

  datatype Plain = RawKey(dek: nat) | Document(doc: Doc)

  /** The account id bound to a wrapped key; evidence blobs carry none. */
  datatype Aad = NoAad | ForAccount(account: Account)

  datatype Blob = Sealed(key: Key, aad: Aad, nonce: nat, plain: Plain) | Junk(bytes: seq<nat>)

  function SealAAD(key: Key, plain: Plain, aad: Aad, nonce: nat): Blob {
    Sealed(key, aad, nonce, plain)
  }

  function OpenAAD(key: Key, blob: Blob, aad: Aad): Option<Plain> {
    if blob.Sealed? && blob.key == key && blob.aad == aad then Some(blob.plain) else None
  }

  /** The configured master keys: the active one wraps, all of them unwrap. */
  datatype Ring = Ring(active: nat, retired: seq<nat>)

  /** The first of the keys that opens the row, in the order tried. */
  function FirstOpening(keys: seq<nat>, account: Account, wrapped: Blob): Option<Plain> {
    if keys == [] then None
    else
      var p := OpenAAD(Master(keys[0]), wrapped, ForAccount(account));
      if p.Some? then p else FirstOpening(keys[1..], account, wrapped)
  }

  function Unwrap(ring: Ring, account: Account, wrapped: Blob): Option<Plain> {
    FirstOpening([ring.active] + ring.retired, account, wrapped)
  }

  datatype Class = Active | Retired | Poison

  function Classify(ring: Ring, account: Account, wrapped: Blob): Class {
    if OpenAAD(Master(ring.active), wrapped, ForAccount(account)).Some? then Active
    else if FirstOpening(ring.retired, account, wrapped).Some? then Retired
    else Poison
  }

  /** The row is a raw key wrapped for this account under one of the keys. */
  predicate OpenedBy(keys: seq<nat>, account: Account, wrapped: Blob) {
    wrapped.Sealed? && wrapped.aad == ForAccount(account) && wrapped.key.Master? && wrapped.key.id in keys
  }

  /** Key order never matters: the row opens exactly when its own wrapping key is configured and it was
      wrapped for this account, and then to what was sealed in it. */
  lemma {:induction false} FirstOpeningExact(keys: seq<nat>, account: Account, wrapped: Blob)
    ensures FirstOpening(keys, account, wrapped)
            == if OpenedBy(keys, account, wrapped) then Some(wrapped.plain) else None
  {
    if keys != [] { FirstOpeningExact(keys[1..], account, wrapped); }
  }

  lemma UnwrapExact(ring: Ring, account: Account, wrapped: Blob)
    ensures Unwrap(ring, account, wrapped)
            == if OpenedBy([ring.active] + ring.retired, account, wrapped) then Some(wrapped.plain) else None
    ensures Classify(ring, account, wrapped)
            == if OpenedBy([ring.active], account, wrapped) then Active
               else if OpenedBy(ring.retired, account, wrapped) then Retired
               else Poison
    ensures Classify(ring, account, wrapped) == Poison <==> Unwrap(ring, account, wrapped).None?
  {
    FirstOpeningExact([ring.active] + ring.retired, account, wrapped);
    FirstOpeningExact(ring.retired, account, wrapped);
  }

  /** A wrapped key moved to another account's row opens there under no keyring whatever. */
  lemma SwappedRowNeverOpens(ring: Ring, owner: Account, other: Account, wrapped: Blob)
    requires Unwrap(ring, owner, wrapped).Some? && other != owner
    ensures forall r: Ring :: Unwrap(r, other, wrapped).None?
  {
    UnwrapExact(ring, owner, wrapped);
    forall r: Ring ensures Unwrap(r, other, wrapped).None? { UnwrapExact(r, other, wrapped); }
  }
}
