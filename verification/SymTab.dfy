/** symtab.c: the chained hash table of names, and the list of all symbols in order of entry. */
module SymTab {
  import opened Defs

  const TABLE_SIZE: nat := 1024

  datatype Class = Unknown | Term | Nonterm | ActionSymbol

  function HashOn(k: nat, rest: seq<nat>): (h: nat)
    ensures k < TABLE_SIZE ==> h < TABLE_SIZE
    decreases |rest|
  {
    if rest == [] then k else HashOn((31 * k + rest[0]) % TABLE_SIZE, rest[1..])
  }

  function Hash(name: seq<nat>): nat
    requires name != []
  {
    HashOn(name[0], name[1..])
  }

  /** hash: the character codes folded with factor 31. */
  method ComputeHash(name: seq<nat>) returns (k: nat)
    requires name != [] && name[0] < TABLE_SIZE
    ensures k == Hash(name) < TABLE_SIZE
  {
    k := name[0];
    var s := 1;
    while s < |name|
      invariant 1 <= s <= |name| && k < TABLE_SIZE && HashOn(k, name[s..]) == Hash(name)
    {
      k := (31 * k + name[s]) % TABLE_SIZE;
      assert name[s..][1..] == name[s + 1..];
      s := s + 1;
    }
  }

  class Bucket {
    const name: seq<nat>
    var value: int
    var index: nat
    var class_: Class

    constructor (name: seq<nat>)
      ensures this.name == name && value == UNDEFINED && index == 0 && class_ == Unknown
    {
      this.name := name;
      value, index, class_ := UNDEFINED, 0, Unknown;
    }
  }

  class SymbolTable {
    const table: array<seq<Bucket>>
    /** first_symbol to last_symbol. */
    var symbols: seq<Bucket>

    /** Every entered bucket is in the chain of its name, alone with that name, and in the list. */
    ghost predicate Valid()
      reads this, table
    {
      && table.Length == TABLE_SIZE
      && (forall h, i :: 0 <= h < TABLE_SIZE && 0 <= i < |table[h]| ==>
            table[h][i].name != [] && Hash(table[h][i].name) == h && table[h][i] in symbols)
      && (forall h, i, j :: 0 <= h < TABLE_SIZE && 0 <= i < j < |table[h]| ==> table[h][i].name != table[h][j].name)
      && (forall i, j :: 0 <= i < j < |symbols| ==> symbols[i] != symbols[j])
    }

    /** b was entered by lookup, not merely listed. */
    ghost predicate Entered(b: Bucket)
      reads this, table
    {
      b.name != [] && Hash(b.name) < table.Length && b in table[Hash(b.name)]
    }

    constructor ()
      ensures Valid() && fresh(table) && symbols == []
      ensures forall h :: 0 <= h < TABLE_SIZE ==> table[h] == []
    {
      table := new seq<Bucket>[TABLE_SIZE](_ => []);
      symbols := [];
    }

    /** lookup: the bucket of that name, made and listed if there was none. */
    method Lookup(name: seq<nat>) returns (bp: Bucket)
      requires Valid() && name != [] && name[0] < TABLE_SIZE
      modifies this, table
      ensures Valid() && Entered(bp) && bp.name == name
      ensures forall b: Bucket :: old(allocated(b)) && old(Entered(b)) ==> Entered(b)
      ensures bp in old(symbols) ==> symbols == old(symbols) && table[..] == old(table[..])
      ensures bp !in old(symbols) ==>
                && fresh(bp) && symbols == old(symbols) + [bp] && bp.value == UNDEFINED
                && table[..] == old(table[..])[Hash(name) := old(table[Hash(name)]) + [bp]]
    {
      var h := ComputeHash(name);
      var chain := table[h];
      var i := 0;
      while i < |chain|
        invariant i <= |chain| && forall j :: 0 <= j < i ==> chain[j].name != name
      {
        if chain[i].name == name {
          return chain[i];
        }
        i := i + 1;
      }
      bp := new Bucket(name);
      table[h] := chain + [bp];
      symbols := symbols + [bp];
    }

    /** Entered buckets are equal exactly when their names are. */
    lemma OneBucketPerName(b: Bucket, c: Bucket)
      requires Valid() && Entered(b) && Entered(c)
      ensures b == c <==> b.name == c.name
    {
      if b.name == c.name {
        var h := Hash(b.name);
        var i :| 0 <= i < |table[h]| && table[h][i] == b;
        var j :| 0 <= j < |table[h]| && table[h][j] == c;
        assert i == j;
      }
    }
  }
}
