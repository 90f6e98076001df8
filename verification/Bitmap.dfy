/** The packed bitmap of a slab: which of its pages hold valid data in remote memory. */
module Bitmap {
  import opened BackupDisk

  const WORDS: nat := 8192          // BITMAP_INT_SIZE
  const PAGE_SIZE: nat := 4096      // IS_PAGE_SIZE

  // ---------------------------------------------------------------- words

  function Mask(j: nat): bv32
    requires j < 32
  {
    (1 as bv32) << j
  }

  predicate Has(w: bv32, mask: bv32) {
    w & mask != 0
  }

  function With(w: bv32, mask: bv32): bv32 {
    w | mask
  }

  function Without(w: bv32, mask: bv32): bv32 {
    w & !mask
  }

  lemma MasksApart(j: nat, k: nat)
    requires j < 32 && k < 32
    ensures Has(Mask(j), Mask(k)) <==> j == k
  {
  }

  lemma OrClear(w: bv32, m: bv32, n: bv32)
    requires m & n == 0 && w & n == 0
    ensures (w | m) & n == 0
  {
  }

  lemma OrSet(w: bv32, m: bv32, n: bv32)
    requires w & n != 0
    ensures (w | m) & n != 0
  {
  }

  lemma AndClear(w: bv32, m: bv32, n: bv32)
    requires w & n == 0
    ensures (w & !m) & n == 0
  {
  }

  lemma AndSet(w: bv32, m: bv32, n: bv32)
    requires m & n == 0 && w & n != 0
    ensures (w & !m) & n != 0
  {
  }

  lemma SameBit(w: bv32, m: bv32)
    ensures (w | m) & m == m && (w & !m) & m == 0 && m & m == m
  {
  }

  lemma WithOther(w: bv32, m: bv32, n: bv32)
    requires !Has(m, n)
    ensures Has(With(w, m), n) == Has(w, n)
  {
    if Has(w, n) {
      OrSet(w, m, n);
    } else {
      OrClear(w, m, n);
    }
  }

  lemma WithoutOther(w: bv32, m: bv32, n: bv32)
    requires !Has(m, n)
    ensures Has(Without(w, m), n) == Has(w, n)
  {
    if Has(w, n) {
      AndSet(w, m, n);
    } else {
      AndClear(w, m, n);
    }
  }

  lemma WithSame(w: bv32, m: bv32)
    requires Has(m, m)
    ensures Has(With(w, m), m)
  {
    SameBit(w, m);
  }

  lemma WithoutSame(w: bv32, m: bv32)
    ensures !Has(Without(w, m), m)
  {
    SameBit(w, m);
  }

  lemma WithBit(w: bv32, j: nat, k: nat)
    requires j < 32 && k < 32
    ensures Has(With(w, Mask(j)), Mask(k)) == (j == k || Has(w, Mask(k)))
  {
    MasksApart(j, k);
    if j == k {
      WithSame(w, Mask(j));
    } else {
      WithOther(w, Mask(j), Mask(k));
    }
  }

  lemma WithoutBit(w: bv32, j: nat, k: nat)
    requires j < 32 && k < 32
    ensures Has(Without(w, Mask(j)), Mask(k)) == (j != k && Has(w, Mask(k)))
  {
    MasksApart(j, k);
    if j == k {
      WithoutSame(w, Mask(j));
    } else {
      WithoutOther(w, Mask(j), Mask(k));
    }
  }

  /** The first n bits of a word, lowest first. */
  function BitsBelow(w: bv32, n: nat): (b: seq<bool>)
    requires n <= 32
    ensures |b| == n
  {
    if n == 0 then [] else BitsBelow(w, n - 1) + [Has(w, Mask(n - 1))]
  }

  lemma {:induction false} BitAt(w: bv32, n: nat, k: nat)
    requires k < n <= 32
    ensures BitsBelow(w, n)[k] <==> Has(w, Mask(k))
  {
    if k < n - 1 {
      BitAt(w, n - 1, k);
    }
  }

  lemma BitsChange(w: bv32, v: bv32, j: nat, bit: bool)
    requires j < 32
    requires forall k: nat :: k < 32 ==> (Has(v, Mask(k)) <==> if k == j then bit else Has(w, Mask(k)))
    ensures BitsBelow(v, 32) == BitsBelow(w, 32)[j := bit]
  {
    var after, before := BitsBelow(v, 32), BitsBelow(w, 32);
    forall k: nat | k < 32 ensures after[k] == before[j := bit][k] {
      BitAt(v, 32, k);
      BitAt(w, 32, k);
    }
  }

  /** The source's |= and &= ~ change one bit. */
  lemma OneBitChanges(w: bv32, j: nat)
    requires j < 32
    ensures BitsBelow(With(w, Mask(j)), 32) == BitsBelow(w, 32)[j := true]
    ensures BitsBelow(Without(w, Mask(j)), 32) == BitsBelow(w, 32)[j := false]
  {
    forall k: nat | k < 32
      ensures Has(With(w, Mask(j)), Mask(k)) <==> k == j || Has(w, Mask(k))
      ensures Has(Without(w, Mask(j)), Mask(k)) <==> k != j && Has(w, Mask(k))
    {
      WithBit(w, j, k);
      WithoutBit(w, j, k);
    }
    BitsChange(w, With(w, Mask(j)), j, true);
    BitsChange(w, Without(w, Mask(j)), j, false);
  }

  // ---------------------------------------------------------------- the bitmap

  predicate Bit(words: seq<bv32>, p: nat)
    requires p / 32 < |words|
  {
    BitsBelow(words[p / 32], 32)[p % 32]
  }

  /** The pages a bitmap records. */
  function Recorded(words: seq<bv32>): set<nat>
    requires |words| == WORDS
  {
    set p: nat | p < SLAB_PAGES && Bit(words, p)
  }

  /** Changing one bit of one word changes one page. */
  lemma OnePageChanges(words: seq<bv32>, i: nat, w: bv32, bit: bool)
    requires |words| == WORDS && i < SLAB_PAGES
    requires BitsBelow(w, 32) == BitsBelow(words[i / 32], 32)[i % 32 := bit]
    ensures Recorded(words[i / 32 := w]) == if bit then Recorded(words) + {i} else Recorded(words) - {i}
  {
    var words' := words[i / 32 := w];
    forall p: nat | p < SLAB_PAGES ensures Bit(words', p) <==> if p == i then bit else Bit(words, p) {
    }
  }

  class PageBitmap {
    const words: array<bv32>

    ghost predicate Valid() {
      words.Length == WORDS
    }

    function Pages(): set<nat>
      requires Valid()
      reads words
    {
      Recorded(words[..])
    }

    method Set(i: nat)
      requires Valid() && i < SLAB_PAGES
      modifies words
      ensures Pages() == old(Pages()) + {i}
    {
      var w := With(words[i / 32], Mask(i % 32));
      OneBitChanges(words[i / 32], i % 32);
      OnePageChanges(words[..], i, w, true);
      ghost var next := words[..][i / 32 := w];
      words[i / 32] := w;
      assert words[..] == next;
    }

    method Clear(i: nat)
      requires Valid() && i < SLAB_PAGES
      modifies words
      ensures Pages() == old(Pages()) - {i}
    {
      var w := Without(words[i / 32], Mask(i % 32));
      OneBitChanges(words[i / 32], i % 32);
      OnePageChanges(words[..], i, w, false);
      ghost var next := words[..][i / 32 := w];
      words[i / 32] := w;
      assert words[..] == next;
    }

    method Test(i: nat) returns (r: bool)
      requires Valid() && i < SLAB_PAGES
      ensures r <==> i in Pages()
    {
      BitAt(words[i / 32], 32, i % 32);
      r := Has(words[i / 32], Mask(i % 32));
    }

    /** Record the whole pages of a byte range, and nothing else. */
    method GroupSet(offset: nat, len: nat)
      requires Valid() && offset / PAGE_SIZE + len / PAGE_SIZE <= SLAB_PAGES
      modifies words
      ensures Pages() == old(Pages()) + PageRange(offset / PAGE_SIZE, offset / PAGE_SIZE + len / PAGE_SIZE)
    {
      var start, n := offset / PAGE_SIZE, len / PAGE_SIZE;
      var i := 0;
      while i < n
        invariant 0 <= i <= n
        invariant Pages() == old(Pages()) + PageRange(start, start + i)
      {
        Set(start + i);
        i := i + 1;
      }
    }

    /** Forget the whole pages of a byte range, and nothing else. */
    method GroupClear(offset: nat, len: nat)
      requires Valid() && offset / PAGE_SIZE + len / PAGE_SIZE <= SLAB_PAGES
      modifies words
      ensures Pages() == old(Pages()) - PageRange(offset / PAGE_SIZE, offset / PAGE_SIZE + len / PAGE_SIZE)
    {
      var start, n := offset / PAGE_SIZE, len / PAGE_SIZE;
      var i := 0;
      while i < n
        invariant 0 <= i <= n
        invariant Pages() == old(Pages()) - PageRange(start, start + i)
      {
        Clear(start + i);
        i := i + 1;
      }
    }

    /** IS_bitmap_init. */
    method Reset()
      requires Valid()
      modifies words
      ensures Pages() == {}
    {
      var i := 0;
      while i < WORDS
        invariant 0 <= i <= WORDS && forall j :: 0 <= j < i ==> words[j] == 0
        modifies words
      {
        words[i] := 0;
        i := i + 1;
      }
      forall p: nat | p < SLAB_PAGES ensures !Bit(words[..], p) {
        BitAt(0, 32, p % 32);
        NoBits(Mask(p % 32));
      }
    }

    constructor ()
      ensures Valid() && fresh(words) && Pages() == {}
    {
      words := new bv32[WORDS];
      new;
      Reset();
    }
  }

  lemma NoBits(mask: bv32)
    ensures !Has(0, mask)
  {
  }
}
