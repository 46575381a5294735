/**
 The evidence cipher of one process: envelope encryption over the account_evidence_keys table, and the
 operator commands that finish a master-key rotation.  No other writer runs meanwhile; concurrent
 histories are the subject of module KeyHistory.
 */
module EvidenceCipher {
  import opened Wrappers
  import opened Envelope

  datatype Result<T> = Ok(value: T) | Shredded | Unopenable

  datatype KeyAudit = KeyAudit(active: nat, retired: nat, poison: set<Account>)

  /** The accounts whose row is in a class. */
  function InClass(ring: Ring, rows: map<Account, Blob>, c: Class): set<Account> {
    set a | a in rows && Classify(ring, a, rows[a]) == c
  }

  /** Every row of the table is in exactly one class. */
  lemma ClassesPartition(ring: Ring, rows: map<Account, Blob>)
    ensures |InClass(ring, rows, Active)| + |InClass(ring, rows, Retired)| + |InClass(ring, rows, Poison)| == |rows|
  {
    var x, y, z := InClass(ring, rows, Active), InClass(ring, rows, Retired), InClass(ring, rows, Poison);
    assert rows.Keys == x + y + z;
    assert |x + y| == |x| + |y|;
  }

  function Count(ring: Ring, rows: map<Account, Blob>, c: Class): nat { |InClass(ring, rows, c)| }

  lemma CountGrows(ring: Ring, rows: map<Account, Blob>, a: Account, w: Blob, c: Class)
    requires a !in rows
    ensures Count(ring, rows[a := w], c)
            == Count(ring, rows, c) + if Classify(ring, a, w) == c then 1 else 0
    ensures InClass(ring, rows[a := w], c)
            == InClass(ring, rows, c) + if Classify(ring, a, w) == c then {a} else {}
  {
    var before, after := InClass(ring, rows, c), InClass(ring, rows[a := w], c);
    if Classify(ring, a, w) == c {
      assert after == before + {a} && a !in before;
    } else {
      assert after == before;
    }
  }

  lemma PoisonExact(ring: Ring, rows: map<Account, Blob>)
    ensures InClass(ring, rows, Poison) == set a | a in rows && Unwrap(ring, a, rows[a]).None?
  {
    forall a | a in rows
      ensures Classify(ring, a, rows[a]) == Poison <==> Unwrap(ring, a, rows[a]).None?
    {
      UnwrapExact(ring, a, rows[a]);
    }
  }

  lemma RowsLeft(rows: map<Account, Blob>, gone: set<Account>)
    requires gone <= rows.Keys
    ensures |rows - gone| == |rows| - |gone|
  {
    assert (rows - gone).Keys == rows.Keys - gone;
    assert |(rows - gone).Keys| == |rows - gone| && |rows.Keys| == |rows|;
  }

  /** What RewrapAll must do to a row: active and poison rows stay as they are, and a retired row is
      replaced by the same plaintext under the active key. */
  predicate RowRewrapped(ring: Ring, a: Account, w: Blob, w': Blob) {
    if Classify(ring, a, w) == Retired
    then OpenAAD(Master(ring.active), w', ForAccount(a)) == Unwrap(ring, a, w)
    else w' == w
  }

  predicate Rewrapped(ring: Ring, rows: map<Account, Blob>, rows': map<Account, Blob>) {
    && rows'.Keys == rows.Keys
    && forall a :: a in rows ==> RowRewrapped(ring, a, rows[a], rows'[a])
  }

  /** The re-wrapped form of a row on a retired key. */
  lemma RewrapRow(ring: Ring, a: Account, w: Blob, nonce: nat)
    requires Classify(ring, a, w) == Retired
    ensures var raw := FirstOpening(ring.retired, a, w);
            raw.Some? && RowRewrapped(ring, a, w, SealAAD(Master(ring.active), raw.value, ForAccount(a), nonce))
  {
    UnwrapExact(ring, a, w);
    FirstOpeningExact(ring.retired, a, w);
  }

  /** After RewrapAll no row is left on a retired key, no account's key has changed, the poison rows are
      the same ones, the counts still add up, and the retired keys can be dropped without loss. */
  lemma RewrapCompletesRotation(ring: Ring, rows: map<Account, Blob>, rows': map<Account, Blob>)
    requires Rewrapped(ring, rows, rows')
    ensures InClass(ring, rows', Retired) == {}
    ensures InClass(ring, rows', Poison) == InClass(ring, rows, Poison)
    ensures |InClass(ring, rows', Active)| + |InClass(ring, rows', Poison)| == |rows|
    ensures forall a :: a in rows ==> Unwrap(ring, a, rows'[a]) == Unwrap(ring, a, rows[a])
    ensures forall a :: a in rows ==> Unwrap(Ring(ring.active, []), a, rows'[a]) == Unwrap(ring, a, rows[a])
  {
    forall a | a in rows
      ensures Unwrap(ring, a, rows'[a]) == Unwrap(ring, a, rows[a])
      ensures Unwrap(Ring(ring.active, []), a, rows'[a]) == Unwrap(ring, a, rows[a])
      ensures Classify(ring, a, rows'[a]) == if Classify(ring, a, rows[a]) == Poison then Poison else Active
    {
      UnwrapExact(ring, a, rows[a]);
      UnwrapExact(ring, a, rows'[a]);
      UnwrapExact(Ring(ring.active, []), a, rows'[a]);
    }
    ClassesPartition(ring, rows');
  }

  class Cipher {
    const ring: Ring
    var rows: map<Account, Blob>

    constructor (ring: Ring, rows: map<Account, Blob>)
      ensures this.ring == ring && this.rows == rows
    {
      this.ring, this.rows := ring, rows;
    }

    // ---- access ----

    /** Stores a fresh wrapped key unless a row exists, and returns the row that is there. */
    method MintDEK(a: Account) returns (wrapped: Blob)
      modifies this
      ensures a in rows && wrapped == rows[a]
      ensures a in old(rows) ==> rows == old(rows)
      ensures a !in old(rows) ==>
                && rows == old(rows)[a := wrapped]
                && OpenedBy([ring.active], a, wrapped) && wrapped.plain.RawKey?
    {
      var raw: nat, nonce: nat := *, *;
      if a !in rows { rows := rows[a := SealAAD(Master(ring.active), RawKey(raw), ForAccount(a), nonce)]; }
      wrapped := rows[a];
    }

    /** Opens a wrapped key with the active key or the first retired key that fits; if it was a retired one,
        the account's row, if there still is one, is re-wrapped on the way, unless that write fails. */
    method UnwrapDEK(a: Account, wrapped: Blob, writes: bool) returns (raw: Option<Plain>)
      modifies this
      ensures raw == Unwrap(ring, a, wrapped)
      ensures rows.Keys == old(rows).Keys
      ensures forall b :: b in rows && b != a ==> rows[b] == old(rows)[b]
      ensures a in rows ==>
                if writes && Classify(ring, a, wrapped) == Retired
                then OpenedBy([ring.active], a, rows[a]) && raw == Some(rows[a].plain)
                else rows[a] == old(rows)[a]
    {
      raw := OpenAAD(Master(ring.active), wrapped, ForAccount(a));
      if raw.Some? { return; }
      assert ([ring.active] + ring.retired)[1..] == ring.retired;
      for i := 0 to |ring.retired|
        invariant raw.None? && rows == old(rows)
        invariant FirstOpening(ring.retired[i..], a, wrapped) == FirstOpening(ring.retired, a, wrapped)
      {
        raw := OpenAAD(Master(ring.retired[i]), wrapped, ForAccount(a));
        if raw.Some? {
          var nonce: nat := *;
          if writes && a in rows { rows := rows[a := SealAAD(Master(ring.active), raw.value, ForAccount(a), nonce)]; }
          return;
        }
      }
    }

    /** Every account keeps the key it has. */
    twostate predicate KeysKept()
      reads this
    {
      forall b :: b in old(rows) ==> b in rows && Unwrap(ring, b, rows[b]) == Unwrap(ring, b, old(rows)[b])
    }

    method Encrypt(a: Account, doc: Doc, writes: bool) returns (r: Result<Blob>)
      modifies this
      ensures KeysKept()
      ensures r.Ok? ==>
                && a in rows && Unwrap(ring, a, rows[a]).Some? && Unwrap(ring, a, rows[a]).value.RawKey?
                && OpenAAD(Data(Unwrap(ring, a, rows[a]).value.dek), r.value, NoAad) == Some(Document(doc))
      ensures !r.Ok? ==> a in old(rows) && (Unwrap(ring, a, old(rows)[a]).None?
                                            || Unwrap(ring, a, old(rows)[a]).value.Document?)
    {
      var wrapped;
      if a in rows { wrapped := rows[a]; } else { wrapped := MintDEK(a); }
      UnwrapExact(ring, a, wrapped);
      var raw := UnwrapDEK(a, wrapped, writes);
      UnwrapExact(ring, a, rows[a]);
      if raw.None? || raw.value.Document? { return Unopenable; }
      var nonce: nat := *;
      r := Ok(SealAAD(Data(raw.value.dek), Document(doc), NoAad, nonce));
    }

    method Decrypt(a: Account, blob: Blob, writes: bool) returns (r: Result<Plain>)
      modifies this
      ensures KeysKept() && rows.Keys == old(rows).Keys
      ensures r.Shredded? <==> a !in old(rows)
      ensures r.Ok? <==>
                && a in old(rows) && Unwrap(ring, a, old(rows)[a]).Some?
                && Unwrap(ring, a, old(rows)[a]).value.RawKey?
                && OpenAAD(Data(Unwrap(ring, a, old(rows)[a]).value.dek), blob, NoAad).Some?
      ensures r.Ok? ==> blob.Sealed? && r.value == blob.plain
    {
      if a !in rows { return Shredded; }
      UnwrapExact(ring, a, rows[a]);
      var raw := UnwrapDEK(a, rows[a], writes);
      UnwrapExact(ring, a, rows[a]);
      if raw.None? || raw.value.Document? { return Unopenable; }
      var plain := OpenAAD(Data(raw.value.dek), blob, NoAad);
      r := if plain.Some? then Ok(plain.value) else Unopenable;
    }

    method ShredAccount(a: Account)
      modifies this
      ensures rows == old(rows) - {a}
    {
      rows := rows - {a};
    }

    // ---- rotation commands ----

    method Audit() returns (k: KeyAudit)
      ensures k.active == Count(ring, rows, Active) && k.retired == Count(ring, rows, Retired)
      ensures k.poison == InClass(ring, rows, Poison)
      ensures k.active + k.retired + |k.poison| == |rows|
    {
      k := KeyAudit(0, 0, {});
      var todo := rows.Keys;
      ghost var seen: map<Account, Blob> := map[];
      while todo != {}
        invariant todo <= rows.Keys && seen.Keys == rows.Keys - todo
        invariant forall a :: a in seen ==> seen[a] == rows[a]
        invariant k.active == Count(ring, seen, Active) && k.retired == Count(ring, seen, Retired)
        invariant k.poison == InClass(ring, seen, Poison)
        decreases todo
      {
        var a :| a in todo;
        k := Tally(k, seen, a);
        seen := seen[a := rows[a]];
        todo := todo - {a};
      }
      assert seen == rows;
      ClassesPartition(ring, rows);
    }

    /** Adds one row to the audit of the rows seen before it. */
    method Tally(k: KeyAudit, ghost seen: map<Account, Blob>, a: Account) returns (k': KeyAudit)
      requires a in rows && a !in seen
      requires k.active == Count(ring, seen, Active) && k.retired == Count(ring, seen, Retired)
      requires k.poison == InClass(ring, seen, Poison)
      ensures k'.active == Count(ring, seen[a := rows[a]], Active)
      ensures k'.retired == Count(ring, seen[a := rows[a]], Retired)
      ensures k'.poison == InClass(ring, seen[a := rows[a]], Poison)
    {
      CountGrows(ring, seen, a, rows[a], Active);
      CountGrows(ring, seen, a, rows[a], Retired);
      CountGrows(ring, seen, a, rows[a], Poison);
      match Classify(ring, a, rows[a])
      case Active => k' := k.(active := k.active + 1);
      case Retired => k' := k.(retired := k.retired + 1);
      case Poison => k' := k.(poison := k.poison + {a});
    }

    method RewrapAll() returns (rewrapped: nat, poison: nat)
      modifies this
      ensures Rewrapped(ring, old(rows), rows)
      ensures rewrapped == Count(ring, old(rows), Retired) && poison == Count(ring, old(rows), Poison)
    {
      rewrapped, poison := 0, 0;
      ghost var moved: set<Account>, dead: set<Account> := {}, {};
      var todo := rows.Keys;
      while todo != {}
        invariant todo <= rows.Keys == old(rows).Keys
        invariant forall a :: a in todo ==> rows[a] == old(rows)[a]
        invariant forall a :: a in rows && a !in todo ==> RowRewrapped(ring, a, old(rows)[a], rows[a])
        invariant moved == set a | a in old(rows) && a !in todo && Classify(ring, a, old(rows)[a]) == Retired
        invariant dead == set a | a in old(rows) && a !in todo && Classify(ring, a, old(rows)[a]) == Poison
        invariant rewrapped == |moved| && poison == |dead|
        decreases todo
      {
        var a :| a in todo;
        var c := RewrapOne(a);
        if c == Retired {
          rewrapped, moved := rewrapped + 1, moved + {a};
        } else if c == Poison {
          poison, dead := poison + 1, dead + {a};
        }
        todo := todo - {a};
      }
      assert moved == InClass(ring, old(rows), Retired) && dead == InClass(ring, old(rows), Poison);
    }

    /** Re-wraps one row if a retired key opens it, and reports the class it had. */
    method RewrapOne(a: Account) returns (c: Class)
      requires a in rows
      modifies this
      ensures c == Classify(ring, a, old(rows)[a])
      ensures rows.Keys == old(rows).Keys && RowRewrapped(ring, a, old(rows)[a], rows[a])
      ensures forall b :: b in rows && b != a ==> rows[b] == old(rows)[b]
    {
      c := Classify(ring, a, rows[a]);
      if c == Retired {
        var nonce: nat := *;
        RewrapRow(ring, a, rows[a], nonce);
        var raw := FirstOpening(ring.retired, a, rows[a]).value;
        rows := rows[a := SealAAD(Master(ring.active), raw, ForAccount(a), nonce)];
      }
    }

    /** Deletes the rows no configured key opens, and only those. */
    method ShredPoison() returns (deleted: nat)
      modifies this
      ensures rows == old(rows) - (set a | a in old(rows) && Unwrap(ring, a, old(rows)[a]).None?)
      ensures deleted == |old(rows)| - |rows|
    {
      var audit := Audit();
      PoisonExact(ring, rows);
      RowsLeft(rows, audit.poison);
      deleted := DeleteRows(audit.poison);
    }

    method DeleteRows(accounts: set<Account>) returns (deleted: nat)
      modifies this
      ensures rows == old(rows) - accounts && deleted == |accounts|
    {
      deleted := 0;
      var todo := accounts;
      while todo != {}
        invariant todo <= accounts
        invariant rows == old(rows) - (accounts - todo)
        invariant deleted == |accounts| - |todo|
        decreases todo
      {
        var a :| a in todo;
        rows := rows - {a};
        todo := todo - {a};
        deleted := deleted + 1;
      }
    }
  }
}
