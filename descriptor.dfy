/** One instruction descriptor and the map built from a list of them.

    A descriptor records, for one instruction code, the 32-bit `opcode` with the
    instruction's fixed bits set, the `mask` of the bit positions that are fixed, and
    the encoding group that tells the encoder how to lay out the operand fields. */
module Descriptors {
  import opened Codes

  /** An `InstructionDescription`: its four fields are final once built. */
  datatype Descriptor = Descriptor(code: InstCode, opcode: bv32, mask: bv32, group: InstructionGroup)

  /** Bits set in the opcode at positions the mask does not fix. */
  function StrayBits(d: Descriptor): (bits: bv32)
  {
    d.opcode & !d.mask
  }

  /** The opcode sets no bit outside the fixed positions. */
  predicate OpcodeWithinMask(d: Descriptor)
  {
    StrayBits(d) == 0
  }

  /** The instruction word `w` agrees with `d` on every fixed bit position. */
  predicate Fits(w: bv32, d: Descriptor)
  {
    (w ^ d.opcode) & d.mask == 0
  }

  /** When all 32 bits are fixed, the opcode is the only word that fits. */
  lemma FitsFullMask(d: Descriptor, w: bv32)
    requires d.mask == 0xffffffff
    ensures Fits(w, d) <==> w == d.opcode
  {
  }

  /** A mask that fixes more positions (`wide`) accepts fewer words: every word that fits
      `narrow`'s superset mask with the same opcode also fits `narrow`. */
  lemma FitsWiderMask(narrow: Descriptor, wide: Descriptor, w: bv32)
    requires narrow.opcode == wide.opcode
    requires narrow.mask & wide.mask == narrow.mask
    ensures Fits(w, wide) ==> Fits(w, narrow)
  {
  }

  /** Two descriptors that differ only in their code: an alias row. */
  predicate SameEncoding(a: Descriptor, b: Descriptor)
  {
    a.opcode == b.opcode && a.mask == b.mask && a.group == b.group
  }

  /** The codes of a list of descriptors. */
  function RowCodes(rows: seq<Descriptor>): (codes: set<InstCode>)
  {
    set d | d in rows :: d.code
  }

  /** Every entry of `m` is stored under its own code. */
  predicate KeyedByCode(m: map<InstCode, Descriptor>)
  {
    forall c | c in m :: m[c].code == c
  }

  /** `m` after putting each descriptor of `rows`, in order, under its code; a later row
      with the same code replaces an earlier one. */
  function Inserted(m: map<InstCode, Descriptor>, rows: seq<Descriptor>): (r: map<InstCode, Descriptor>)
    decreases |rows|
  {
    if rows == [] then m
    else Inserted(m, rows[..|rows| - 1])[rows[|rows| - 1].code := rows[|rows| - 1]]
  }

  /** The keys after the inserts are the old keys and the inserted codes. */
  lemma {:induction false} InsertedKeys(m: map<InstCode, Descriptor>, rows: seq<Descriptor>)
    ensures Inserted(m, rows).Keys == m.Keys + RowCodes(rows)
    decreases |rows|
  {
    if rows != [] {
      var n := |rows| - 1;
      InsertedKeys(m, rows[..n]);
      assert rows == rows[..n] + [rows[n]];
      assert RowCodes(rows) == RowCodes(rows[..n]) + {rows[n].code};
    }
  }

  /** A row whose code no later row repeats is what the map holds for that code. */
  lemma {:induction false} InsertedLastWins(m: map<InstCode, Descriptor>, rows: seq<Descriptor>, k: nat)
    requires k < |rows|
    requires forall j | k < j < |rows| :: rows[j].code != rows[k].code
    ensures rows[k].code in Inserted(m, rows)
    ensures Inserted(m, rows)[rows[k].code] == rows[k]
    decreases |rows|
  {
    var n := |rows| - 1;
    if k < n {
      InsertedLastWins(m, rows[..n], k);
    }
  }

  /** A code that no row carries keeps its old entry, or stays absent. */
  lemma {:induction false} InsertedUntouched(m: map<InstCode, Descriptor>, rows: seq<Descriptor>, c: InstCode)
    requires forall j | 0 <= j < |rows| :: rows[j].code != c
    ensures c in Inserted(m, rows) <==> c in m
    ensures c in m ==> Inserted(m, rows)[c] == m[c]
    decreases |rows|
  {
    if rows != [] {
      InsertedUntouched(m, rows[..|rows| - 1], c);
    }
  }

  /** Inserting rows under their own codes keeps every entry under its own code. */
  lemma {:induction false} InsertedKeyedByCode(m: map<InstCode, Descriptor>, rows: seq<Descriptor>)
    requires KeyedByCode(m)
    ensures KeyedByCode(Inserted(m, rows))
    decreases |rows|
  {
    if rows != [] {
      InsertedKeyedByCode(m, rows[..|rows| - 1]);
    }
  }
}
