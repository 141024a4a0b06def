/** The descriptor table of src/main/java/jnr/a64asm/InstructionDescription.java.

    The Java class keeps one static map from instruction code to descriptor. Its static
    initialiser fills the map through `MAKE_INST`, one call per row of the `all` array,
    and `find` looks a code up, throwing `IllegalArgumentException` when the code has no
    row. Here the static state is one `DescriptorTable` object whose constructor plays the
    static initialiser. */
module InstructionDescription {
  import opened Codes
  import opened Results
  import opened Descriptors
  import opened DescriptorRows

  /** Why `find` fails: no row carries the code (`IllegalArgumentException`). */
  datatype LookupError = NoDescription(code: InstCode)

  /** The map the static initialiser leaves behind: every row put under its code, in
      order. Each entry is stored under its own code. */
  function BuiltTable(): (r: map<InstCode, Descriptor>)
    ensures KeyedByCode(r)
  {
    InsertedKeyedByCode(map[], Rows());
    Inserted(map[], Rows())
  }

  class DescriptorTable {
    /** The static `table` map. */
    var table: map<InstCode, Descriptor>
    /** The static `all` array: the descriptors `MAKE_INST` returned, in row order. */
    var all: seq<Descriptor>

    /** Every entry is stored under its own code. */
    ghost predicate Valid()
      reads this
    {
      KeyedByCode(table)
    }

    /** The static initialiser: the map starts empty and the `all` initialiser makes one
        `MAKE_INST` call per row, keeping what each call returns. */
    constructor ()
      ensures Valid()
      ensures table == BuiltTable()
      ensures all == Rows()
    {
      table := map[];
      all := [];
      new;
      all := InsertAll(Rows());
    }

    /** `MAKE_INST`: builds the descriptor with exactly the given fields, stores it under
        `code` (replacing any earlier entry for that code) and returns it. */
    method MakeInst(code: InstCode, opcode: bv32, mask: bv32, group: InstructionGroup) returns (id: Descriptor)
      requires Valid()
      modifies this`table
      ensures Valid()
      ensures id == Descriptor(code, opcode, mask, group)
      ensures table == old(table)[code := id]
      ensures forall c | c != code :: (c in table <==> c in old(table)) && (c in table ==> table[c] == old(table)[c])
    {
      id := Descriptor(code, opcode, mask, group);
      table := table[code := id];
    }

    /** The `all` array initialiser over `rows`: one `MAKE_INST` call per row, in order. */
    method InsertAll(rows: seq<Descriptor>) returns (made: seq<Descriptor>)
      requires Valid()
      modifies this`table
      ensures Valid()
      ensures made == rows
      ensures table == Inserted(old(table), rows)
    {
      made := [];
      var i := 0;
      while i < |rows|
        invariant 0 <= i <= |rows|
        invariant made == rows[..i]
        invariant table == Inserted(old(table), rows[..i])
        invariant Valid()
      {
        var id := MakeInst(rows[i].code, rows[i].opcode, rows[i].mask, rows[i].group);
        assert rows[..i + 1][..i] == rows[..i];
        made := made + [id];
        i := i + 1;
      }
      assert rows[..i] == rows;
    }

    /** `find`: the descriptor stored under `code`, or `NoDescription` when there is none.
        In a valid table the descriptor found carries the code asked for. */
    function Find(code: InstCode): (r: Result<Descriptor, LookupError>)
      reads this
      ensures r.Ok? <==> code in table
      ensures r.Ok? ==> r.value == table[code]
      ensures r.Err? ==> r.error == NoDescription(code)
      ensures Valid() && r.Ok? ==> r.value.code == code
    {
      if code in table then Ok(table[code]) else Err(NoDescription(code))
    }
  }

  /** No code appears twice in the row list. */
  lemma {:induction false} CodesDistinct(j: nat, k: nat)
    requires j < k < |Rows()|
    ensures Rows()[j].code != Rows()[k].code
  {
    RowFactsHold(j);
    RowFactsHold(k);
  }

  /** The built map has an entry exactly for the codes of the rows. */
  lemma {:induction false} BuiltTableKeys()
    ensures BuiltTable().Keys == RowCodes(Rows())
  {
    InsertedKeys(map[], Rows());
  }

  /** After the build, `find` on a row's code returns exactly that row. */
  lemma {:induction false} FindRow(t: DescriptorTable, k: nat)
    requires t.table == BuiltTable()
    requires k < |Rows()|
    ensures t.Find(Rows()[k].code) == Ok(Rows()[k])
  {
    forall j | k < j < |Rows()|
      ensures Rows()[j].code != Rows()[k].code
    {
      CodesDistinct(k, j);
    }
    InsertedLastWins(map[], Rows(), k);
  }

  /** After the build, `find` on a code that no row carries fails with `NoDescription`. */
  lemma {:induction false} FindUnknown(t: DescriptorTable, c: InstCode)
    requires t.table == BuiltTable()
    requires forall k | 0 <= k < |Rows()| :: Rows()[k].code != c
    ensures t.Find(c) == Err(NoDescription(c))
  {
    InsertedUntouched(map[], Rows(), c);
  }

  /** A code that has a row is found at the position numbered by the code itself. */
  lemma {:induction false} FindCode(t: DescriptorTable, c: InstCode)
    requires t.table == BuiltTable()
    requires c < |Rows()|
    ensures t.Find(c) == Ok(RowAt(c))
  {
    RowFactsHold(c);
    FindRow(t, c);
  }

  /** After the build, `find` succeeds exactly on the codes that have a row; with codes
      numbered in row order, those are the codes below the number of rows. */
  lemma {:induction false} FoundHasRow(t: DescriptorTable, c: InstCode)
    requires t.table == BuiltTable()
    ensures t.Find(c).Ok? <==> c in RowCodes(Rows())
    ensures t.Find(c).Ok? <==> c < |Rows()|
  {
    BuiltTableKeys();
    if c < |Rows()| {
      RowFactsHold(c);
      assert Rows()[c] in Rows();
    } else {
      forall k | 0 <= k < |Rows()|
        ensures Rows()[k].code != c
      {
        RowFactsHold(k);
      }
    }
  }
}
