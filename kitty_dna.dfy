/** The genetic combinator used by `breed`: a child genome is built byte by
    byte from two parent genomes and a random selector of the same length. */
module KittyDna {

  /** Length in bytes of a genome and of a breeding selector (`[u8; 16]`). */
  const DNA_LEN: int := 16

  /** A kitty's genome, also the shape of the selector. */
  type Dna = s: seq<bv8> | |s| == DNA_LEN witness seq(DNA_LEN, i => 0 as bv8)

  /** The byte with only bit `k` set, counting from the least significant bit. */
  function BitMask(k: nat): bv8
    requires k < 8
  {
    if k == 0 then 0x01 else if k == 1 then 0x02 else if k == 2 then 0x04 else if k == 3 then 0x08
    else if k == 4 then 0x10 else if k == 5 then 0x20 else if k == 6 then 0x40 else 0x80
  }

  /** Bit `k` of byte `b`. */
  predicate Bit(b: bv8, k: nat)
    requires k < 8
  {
    b & BitMask(k) != 0
  }

  /** One byte of the child: each bit set in `sel` comes from `a`,
      each clear bit from `b`. */
  function Gene(sel: bv8, a: bv8, b: bv8): (c: bv8)
    ensures forall k :: 0 <= k < 8 ==> Bit(c, k) == if Bit(sel, k) then Bit(a, k) else Bit(b, k)
  {
    (sel & a) | (!sel & b)
  }

  /** The child genome bred from `dna1` and `dna2` under `selector`. */
  function Mix(selector: Dna, dna1: Dna, dna2: Dna): (child: Dna)
    ensures forall i, k :: 0 <= i < DNA_LEN && 0 <= k < 8 ==>
      Bit(child[i], k) == if Bit(selector[i], k) then Bit(dna1[i], k) else Bit(dna2[i], k)
  {
    seq(DNA_LEN, i requires 0 <= i < DNA_LEN => Gene(selector[i], dna1[i], dna2[i]))
  }

  /** The child-genome loop of `breed`: fills a zeroed 16-byte buffer one byte
      at a time. */
  method ChildDna(selector: Dna, dna1: Dna, dna2: Dna) returns (child: Dna)
    ensures child == Mix(selector, dna1, dna2)
  {
    var buf := new bv8[DNA_LEN](i => 0);
    for i := 0 to DNA_LEN
      invariant forall j :: 0 <= j < i ==> buf[j] == Gene(selector[j], dna1[j], dna2[j])
    {
      buf[i] := (selector[i] & dna1[i]) | (!selector[i] & dna2[i]);
    }
    child := buf[..];
  }

  /** Parents with the same genome breed true, whatever the selector. */
  lemma {:induction false} MixSameParents(selector: Dna, dna: Dna)
    ensures Mix(selector, dna, dna) == dna
  {
    var child := Mix(selector, dna, dna);
    forall i | 0 <= i < DNA_LEN
      ensures child[i] == dna[i]
    {
      assert child[i] == (selector[i] & dna[i]) | (!selector[i] & dna[i]);
    }
  }

  /** A selector with every bit set copies the first parent. */
  lemma {:induction false} MixFullSelector(dna1: Dna, dna2: Dna)
    ensures Mix(seq(DNA_LEN, i => 0xFF as bv8), dna1, dna2) == dna1
  {
    var child := Mix(seq(DNA_LEN, i => 0xFF as bv8), dna1, dna2);
    forall i | 0 <= i < DNA_LEN
      ensures child[i] == dna1[i]
    {
      assert child[i] == (0xFF & dna1[i]) | (!(0xFF as bv8) & dna2[i]);
    }
  }

  /** A selector with every bit clear copies the second parent. */
  lemma {:induction false} MixEmptySelector(dna1: Dna, dna2: Dna)
    ensures Mix(seq(DNA_LEN, i => 0 as bv8), dna1, dna2) == dna2
  {
    var child := Mix(seq(DNA_LEN, i => 0 as bv8), dna1, dna2);
    forall i | 0 <= i < DNA_LEN
      ensures child[i] == dna2[i]
    {
      assert child[i] == (0 & dna1[i]) | (!(0 as bv8) & dna2[i]);
    }
  }

  /** Complementing the selector swaps the roles of the two parents. */
  lemma {:induction false} MixComplementSelector(selector: Dna, dna1: Dna, dna2: Dna)
    ensures Mix(seq(DNA_LEN, i requires 0 <= i < DNA_LEN => !selector[i]), dna1, dna2) == Mix(selector, dna2, dna1)
  {
    var flipped: Dna := seq(DNA_LEN, i requires 0 <= i < DNA_LEN => !selector[i]);
    var left, right := Mix(flipped, dna1, dna2), Mix(selector, dna2, dna1);
    forall i | 0 <= i < DNA_LEN
      ensures left[i] == right[i]
    {
      assert left[i] == (!selector[i] & dna1[i]) | (!!selector[i] & dna2[i]);
      assert right[i] == (selector[i] & dna2[i]) | (!selector[i] & dna1[i]);
    }
  }
}
