/**
 * The per-processor PCID bitmap allocator (pcid.c, pcid.h).
 *
 * `PCID_COUNT` is defined as `2 << 12` without parentheses, so every
 * expression it appears in is re-associated by C's precedence rules:
 *   - `i < PCID_COUNT / 64`         is `i < 2 << (12 / 64)`, that is `i < 2`;
 *   - `(i + last) % PCID_COUNT / 8` is `((i + last) % 2) << (12 / 8)`, that is `((i + last) % 2) << 1`;
 *   - `alloc(PCID_COUNT / 8 * 8)`   is `alloc(2 << (12 / 8 * 8))`, that is 512 bytes (64 words);
 *   - `memset(.., PCID_COUNT / 64)` is `memset(.., 2 << 0)`, that is 2 bytes.
 * The model uses those expanded values.
 */
module Pcid {
  import opened Common

  /** Words of the bitmap: the 512 bytes `alloc(PCID_COUNT / sizeof(*pcid_bmp) * 8)` asks for. */
  const BitmapWords: nat := 64
  /** Loop bound `PCID_COUNT / (sizeof(*pcid_bmp) * 8)` as it expands: 2. */
  const WordsScanned: nat := 2
  /** Bytes init_pcid's memset clears, `PCID_COUNT / (sizeof(*pcid_bmp) * 8)` as it expands: 2. */
  const ClearedBytes: nat := 2

  /**
   * A `uint64_t` bitmap word, as its 64 bits: bit j at index j.
   * A C `int` is the same with 32 bits.
   */
  type Word = w: seq<bool> | |w| == 64 witness seq(64, _ => false)
  type Int32 = v: seq<bool> | |v| == 32 witness seq(32, _ => false)

  /** `~0`: every bit set. */
  function Ones(): Word
  {
    seq(64, _ => true)
  }

  /** `~w`. */
  function Not(w: Word): (r: Word)
    ensures forall j :: 0 <= j < 64 ==> r[j] == !w[j]
  {
    seq(64, j requires 0 <= j < 64 => !w[j])
  }

  /** `a | b`. */
  function Or(a: Word, b: Word): (r: Word)
    ensures forall j :: 0 <= j < 64 ==> r[j] == (a[j] || b[j])
  {
    seq(64, j requires 0 <= j < 64 => a[j] || b[j])
  }

  /** `a & b`. */
  function And(a: Word, b: Word): (r: Word)
    ensures forall j :: 0 <= j < 64 ==> r[j] == (a[j] && b[j])
  {
    seq(64, j requires 0 <= j < 64 => a[j] && b[j])
  }

  /** A `uint64_t` converted to `int`: its low 32 bits. */
  function Low32(w: Word): (v: Int32)
    ensures forall j :: 0 <= j < 32 ==> v[j] == w[j]
  {
    w[..32]
  }

  /** __builtin_ffs scanning from bit `k` up: one plus the lowest set bit at or above `k`, or 0. */
  function FfsFrom(v: Int32, k: nat): (r: nat)
    requires k <= 32
    ensures r == 0 || k < r <= 32
    decreases 32 - k
  {
    if k == 32 then 0 else if v[k] then k + 1 else FfsFrom(v, k + 1)
  }

  /** FfsFrom finds the lowest set bit at or above `k`, and 0 only when there is none. */
  lemma {:induction false} FfsFromSpec(v: Int32, k: nat)
    requires k <= 32
    ensures var r := FfsFrom(v, k);
            (r == 0 <==> forall j :: k <= j < 32 ==> !v[j]) &&
            (r > 0 ==> v[r - 1] && forall j :: k <= j < r - 1 ==> !v[j])
    decreases 32 - k
  {
    if k < 32 && !v[k] {
      FfsFromSpec(v, k + 1);
    }
  }

  /** __builtin_ffs on an `int`: one plus the index of the lowest set bit, 0 when no bit is set. */
  function Ffs(v: Int32): (r: nat)
    ensures r <= 32
  {
    FfsFrom(v, 0)
  }

  /** Ffs returns one plus the lowest set bit, and 0 exactly when no bit is set. */
  lemma FfsSpec(v: Int32)
    ensures var r := Ffs(v);
            (r == 0 <==> forall j :: 0 <= j < 32 ==> !v[j]) &&
            (r > 0 ==> v[r - 1] && forall j :: 0 <= j < r - 1 ==> !v[j])
  {
    FfsFromSpec(v, 0);
  }

  /** The `int` `1 << x`. */
  function IntShl1(x: nat): (v: Int32)
    requires x < 32
    ensures forall j :: 0 <= j < 32 ==> v[j] == (j == x)
  {
    seq(32, j => j == x)
  }

  /** The `int` `~v`. */
  function IntNot(v: Int32): (r: Int32)
    ensures forall j :: 0 <= j < 32 ==> r[j] == !v[j]
  {
    seq(32, j requires 0 <= j < 32 => !v[j])
  }

  /** An `int` converted to `uint64_t`: sign-extended from bit 31. */
  function Widen(v: Int32): (w: Word)
    ensures forall j :: 0 <= j < 64 ==> w[j] == if j < 32 then v[j] else v[31]
  {
    v + seq(32, _ => v[31])
  }

  /**
   * `1 << x` widened to `uint64_t`: for x = 31 the int is negative, so
   * the widening sets bits 31-63.
   */
  function IntBit(x: nat): (r: Word)
    requires x < 32
    ensures x < 31 ==> forall j :: 0 <= j < 64 ==> r[j] == (j == x)
    ensures x == 31 ==> forall j :: 0 <= j < 64 ==> r[j] == (j >= 31)
  {
    Widen(IntShl1(x))
  }

  /**
   * `~(1 << k)` widened to `uint64_t`: for k = 31 the int is positive, so
   * the widening clears bits 31-63.
   */
  function IntClearMask(k: nat): (r: Word)
    requires k < 32
    ensures k < 31 ==> forall j :: 0 <= j < 64 ==> r[j] == (j != k)
    ensures k == 31 ==> forall j :: 0 <= j < 64 ==> r[j] == (j < 31)
  {
    Widen(IntNot(IntShl1(k)))
  }

  /**
   * The word pcid_allocate looks at in pass `i`:
   * `((i + last_free) % 2) << 1` (both operands are non-negative, so C's
   * `%` agrees with Dafny's).
   */
  function ScanWord(i: nat, lastFree: nat): (w: nat)
    ensures w == 0 || w == 2
  {
    ((i + lastFree) % 2) * 2
  }

  /** Where pcid_allocate finds a free id: the pass it was in, the word it scanned, the bit in it. */
  datatype Pick = Pick(pass: nat, word: nat, bit: nat)

  /** The id pcid_allocate returns for a pick: `i * 64 + x`, from the pass number `i`. */
  function ReturnedId(p: Pick): int
  {
    p.pass * 64 + p.bit
  }

  /** pcid_allocate's search from pass `i` on; None when both passes find nothing. */
  function Search(bmp: seq<Word>, lastFree: nat, i: nat): (r: Option<Pick>)
    requires |bmp| == BitmapWords && i <= WordsScanned
    ensures r != None ==> i <= r.value.pass < WordsScanned && r.value.bit < 32
    ensures r != None ==> r.value.word == ScanWord(r.value.pass, lastFree)
    decreases WordsScanned - i
  {
    if i == WordsScanned then None
    else
      var w := ScanWord(i, lastFree);
      var x := Ffs(Low32(Not(bmp[w])));
      if bmp[w] == Ones() || x == 0 then Search(bmp, lastFree, i + 1)
      else Some(Pick(i, w, x - 1))
  }

  /**
   * The bit pcid_allocate takes was clear, and every lower bit of its word
   * was taken: it is the lowest free bit of that word.
   */
  lemma {:induction false} SearchFindsLowestFree(bmp: seq<Word>, lastFree: nat, i: nat)
    requires |bmp| == BitmapWords && i <= WordsScanned
    requires Search(bmp, lastFree, i) != None
    ensures var p := Search(bmp, lastFree, i).value;
            !bmp[p.word][p.bit] && forall j :: 0 <= j < p.bit ==> bmp[p.word][j]
    decreases WordsScanned - i
  {
    var w := ScanWord(i, lastFree);
    var x := Ffs(Low32(Not(bmp[w])));
    if bmp[w] == Ones() || x == 0 {
      SearchFindsLowestFree(bmp, lastFree, i + 1);
    } else {
      FfsSpec(Low32(Not(bmp[w])));
    }
  }

  /** pcid_allocate finds nothing exactly when the low 32 bits of both scanned words are all taken. */
  lemma {:induction false} SearchNone(bmp: seq<Word>, lastFree: nat, i: nat)
    requires |bmp| == BitmapWords && i <= WordsScanned
    ensures Search(bmp, lastFree, i) == None <==>
            forall n, j :: i <= n < WordsScanned && 0 <= j < 32 ==> bmp[ScanWord(n, lastFree)][j]
    decreases WordsScanned - i
  {
    if i < WordsScanned {
      SearchNone(bmp, lastFree, i + 1);
      var w := ScanWord(i, lastFree);
      FfsSpec(Low32(Not(bmp[w])));
      assert Search(bmp, lastFree, i) == None <==>
             (forall j :: 0 <= j < 32 ==> bmp[w][j]) && Search(bmp, lastFree, i + 1) == None;
    }
  }

  /** The word pcid_free clears for `pcid`: `pcid / 64`. */
  function FreeWord(pcid: nat): nat
  {
    pcid / 64
  }

  /** The bitmap after pcid_free(pcid): bit `pcid % 64` of word `pcid / 64` cleared (and, for bit 31, bits 32-63 too). */
  function Freed(bmp: seq<Word>, pcid: nat): (r: seq<Word>)
    requires |bmp| == BitmapWords && FreeWord(pcid) < BitmapWords && pcid % 64 < 32
    ensures |r| == BitmapWords
  {
    bmp[FreeWord(pcid) := And(bmp[FreeWord(pcid)], IntClearMask(pcid % 64))]
  }

  /** The bitmap after pcid_allocate takes `p`: bit `p.bit` of word `p.word` set (and, for bit 31, bits 32-63 too). */
  function Taken(bmp: seq<Word>, p: Pick): (r: seq<Word>)
    requires |bmp| == BitmapWords && p.word < BitmapWords && p.bit < 32
    ensures |r| == BitmapWords
  {
    bmp[p.word := Or(bmp[p.word], IntBit(p.bit))]
  }

  /** Freeing ids below bit 31 changes exactly one bit of the bitmap. */
  lemma FreedClearsOneBit(bmp: seq<Word>, pcid: nat)
    requires |bmp| == BitmapWords && FreeWord(pcid) < BitmapWords && pcid % 64 < 31
    ensures forall n, j :: 0 <= n < BitmapWords && 0 <= j < 64 ==>
              Freed(bmp, pcid)[n][j] == (bmp[n][j] && (n, j) != (pcid / 64, pcid % 64))
  {
  }

  /** Taking a bit below 31 changes exactly that bit; taking bit 31 sets bits 31-63 of the word. */
  lemma TakenSetsBits(bmp: seq<Word>, p: Pick)
    requires |bmp| == BitmapWords && p.word < BitmapWords && p.bit < 32
    ensures forall n, j :: 0 <= n < BitmapWords && 0 <= j < 64 ==>
              Taken(bmp, p)[n][j] == (bmp[n][j] || (n == p.word && (j == p.bit || (p.bit == 31 && j > 31))))
  {
  }

  /** The word init_pcid leaves in slot 0: the memset clears its first 2 bytes, then bit 0 is set. */
  function InitialWord(w: Word): (r: Word)
    ensures r[0] && forall j :: 1 <= j < 64 ==> r[j] == (j >= 8 * ClearedBytes && w[j])
  {
    Or(And(w, seq(64, j => j >= 8 * ClearedBytes)), IntBit(0))
  }

  /** The bitmap init_pcid leaves: the allocation's contents with word 0 replaced by InitialWord. */
  function InitialBitmap(contents: seq<Word>): (r: seq<Word>)
    requires |contents| == BitmapWords
    ensures |r| == BitmapWords && r[0] == InitialWord(contents[0]) && r[1..] == contents[1..]
  {
    contents[0 := InitialWord(contents[0])]
  }

  /** A bitmap with only the low 32 bits of word 0 taken. */
  function LowHalfTaken(): (r: seq<Word>)
    ensures |r| == BitmapWords
  {
    seq(BitmapWords, n => if n == 0 then seq(64, j => j < 32) else seq(64, _ => false))
  }

  /**
   * pcid_allocate returns `i * 64 + x` from the pass number `i`, while the
   * bit went into word `((i + last_free) % 2) << 1`.  With the low half of
   * word 0 full and last_free = 0 the bit goes into word 2 and the id
   * returned is 64, which pcid_free maps to word 1: the bit stays taken.
   */
  lemma AllocatedIdFreesWrongWord()
    ensures var bmp := LowHalfTaken();
            var p := Search(bmp, 0, 0);
            p == Some(Pick(1, 2, 0)) && ReturnedId(p.value) == 64 && FreeWord(64) == 1
            && !bmp[2][0] && Freed(Taken(bmp, p.value), 64)[2][0]
  {
    var bmp := LowHalfTaken();
    FfsSpec(Low32(Not(bmp[0])));
    assert Low32(Not(bmp[2]))[0];
    assert Ffs(Low32(Not(bmp[2]))) == 1;
  }

  /** The id the allocator evidently means to return: the word it took times 64 plus the bit. */
  function CorrectedId(p: Pick): nat
  {
    p.word * 64 + p.bit
  }

  /** With that id, freeing what was just taken restores the bitmap (for the bits below 31). */
  lemma CorrectedIdFreesPick(bmp: seq<Word>, lastFree: nat)
    requires |bmp| == BitmapWords
    requires Search(bmp, lastFree, 0) != None && Search(bmp, lastFree, 0).value.bit < 31
    ensures var p := Search(bmp, lastFree, 0).value;
            FreeWord(CorrectedId(p)) == p.word && Freed(Taken(bmp, p), CorrectedId(p)) == bmp
  {
    var p := Search(bmp, lastFree, 0).value;
    SearchFindsLowestFree(bmp, lastFree, 0);
    assert CorrectedId(p) / 64 == p.word && CorrectedId(p) % 64 == p.bit;
    var after := Freed(Taken(bmp, p), CorrectedId(p));
    assert after[p.word] == bmp[p.word];
  }

  /** A bitmap whose words are all ones. */
  function AllTaken(): (r: seq<Word>)
    ensures |r| == BitmapWords
  {
    seq(BitmapWords, _ => Ones())
  }

  /**
   * init_pcid's memset clears 2 bytes of the 512 it allocated: words 1-63
   * keep whatever the allocation held, so from an allocation full of ones
   * word 2, the other word pcid_allocate scans, starts out full.
   */
  lemma InitLeavesStaleWords()
    ensures var bmp := InitialBitmap(AllTaken());
            bmp[2] == Ones() && Search(bmp, 0, 0) == Some(Pick(0, 0, 1))
  {
    var bmp := InitialBitmap(AllTaken());
    var v := Low32(Not(bmp[0]));
    assert !v[0] && v[1];
    assert Ffs(v) == 2;
  }

  /** The bitmap init_pcid evidently means to build: every id free except PCID 0. */
  function CorrectedInitialBitmap(): (r: seq<Word>)
    ensures |r| == BitmapWords
  {
    var free: Word := seq(64, _ => false);
    seq(BitmapWords, n => if n == 0 then IntBit(0) else free)
  }

  /** That bitmap marks only PCID 0 taken, whatever the allocation held, and the first allocation returns PCID 1. */
  lemma CorrectedInitialBitmapFree()
    ensures var bmp := CorrectedInitialBitmap();
            (forall n, j :: 0 <= n < BitmapWords && 0 <= j < 64 ==> bmp[n][j] == (n == 0 && j == 0))
            && Search(bmp, 0, 0) == Some(Pick(0, 0, 1))
  {
    var bmp := CorrectedInitialBitmap();
    var v := Low32(Not(bmp[0]));
    assert !v[0] && v[1];
    assert Ffs(v) == 2;
  }

  /** `Arc_CurProcessorDescriptor->pcid`: the bitmap (absent until init_pcid) and `last_free`. */
  class PcidAllocator {
    var present: bool
    var bmp: array<Word>
    var lastFree: nat

    ghost predicate Valid()
      reads this
    {
      bmp.Length == BitmapWords && (lastFree == 0 || lastFree == 2)
    }

    /** A processor descriptor before init_pcid: no bitmap. */
    constructor ()
      ensures Valid() && !present && lastFree == 0
    {
      present := false;
      bmp := new Word[BitmapWords](_ => seq(64, _ => false));
      lastFree := 0;
    }

    /**
     * init_pcid: -1 without the PCID feature or when `allocation` (the
     * allocator's answer: None for NULL, else the 64 words it holds) is
     * None; otherwise install the bitmap InitialBitmap describes.
     */
    method Init(pcidFeature: bool, allocation: Option<seq<Word>>) returns (rc: int)
      requires Valid()
      requires allocation != None ==> |allocation.value| == BitmapWords
      modifies this
      ensures Valid()
      ensures !pcidFeature || allocation == None ==>
        rc == -1 && present == old(present) && bmp == old(bmp) && lastFree == old(lastFree)
      ensures pcidFeature && allocation != None ==>
        rc == 0 && present && fresh(bmp) && bmp[..] == InitialBitmap(allocation.value) && lastFree == 0
    {
      if !pcidFeature {
        return -1;
      }
      if allocation == None {
        return -1;
      }
      var words := new Word[BitmapWords](k requires 0 <= k < BitmapWords => allocation.value[k]);
      words[0] := And(words[0], seq(64, j => j >= 8 * ClearedBytes));
      words[0] := Or(words[0], IntBit(0));
      assert words[..] == InitialBitmap(allocation.value);
      bmp := words;
      present := true;
      lastFree := 0;
      rc := 0;
    }

    /**
     * pcid_allocate: -1 without a bitmap; otherwise take the bit Search
     * finds and return ReturnedId of it, or return 0 when there is none.
     */
    method Allocate() returns (pcid: int)
      requires Valid()
      modifies this, bmp
      ensures Valid() && bmp == old(bmp) && present == old(present)
      ensures !present ==> pcid == -1 && bmp[..] == old(bmp[..]) && lastFree == old(lastFree)
      ensures present && Search(old(bmp[..]), old(lastFree), 0) == None ==>
        pcid == 0 && bmp[..] == old(bmp[..]) && lastFree == old(lastFree)
      ensures present && Search(old(bmp[..]), old(lastFree), 0) != None ==>
        var p := Search(old(bmp[..]), old(lastFree), 0).value;
        pcid == ReturnedId(p) && bmp[..] == Taken(old(bmp[..]), p) && lastFree == p.word
    {
      if !present {
        return -1;
      }
      var last := lastFree;
      ghost var words := bmp[..];
      pcid := 0;
      var i := 0;
      while i < WordsScanned
        invariant 0 <= i <= WordsScanned && pcid == 0 && last == old(lastFree)
        invariant bmp[..] == words
        invariant Search(words, last, 0) == Search(words, last, i)
      {
        var w := ScanWord(i, last);
        if bmp[w] != Ones() {
          var x := Ffs(Low32(Not(bmp[w])));
          if x != 0 {
            x := x - 1;
            assert Search(words, last, i) == Some(Pick(i, w, x));
            Mark(Pick(i, w, x));
            pcid := i * 64 + x;
            last := w;
            break;
          }
        }
        i := i + 1;
      }
      lastFree := last;
    }

    /** `pcid_bmp[_i] |= 1 << x` for the pick. */
    method Mark(p: Pick)
      requires Valid() && p.word < BitmapWords && p.bit < 32
      modifies bmp
      ensures bmp[..] == Taken(old(bmp[..]), p)
    {
      bmp[p.word] := Or(bmp[p.word], IntBit(p.bit));
    }

    /** pcid_free: nothing without a bitmap; otherwise the bitmap becomes Freed. */
    method Free(pcid: nat)
      requires Valid() && FreeWord(pcid) < BitmapWords && pcid % 64 < 32
      modifies bmp
      ensures !present ==> bmp[..] == old(bmp[..])
      ensures present ==> bmp[..] == Freed(old(bmp[..]), pcid)
    {
      if !present {
        return;
      }
      var k := FreeWord(pcid);
      bmp[k] := And(bmp[k], IntClearMask(pcid % 64));
    }
  }
}
