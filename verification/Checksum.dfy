/** The one's-complement header checksum (RFC 791 section 3.1, RFC 1071) and the
    incremental update of RFC 1624 section 3 that `bpf_l3_csum_replace` performs. */
module Checksum {
  import opened Bytes

  type Word = w: int | 0 <= w < 0x1_0000

  const MINUS_ZERO: Word := 0xffff

  /** One's-complement addition with end-around carry. */
  function OcAdd(a: Word, b: Word): Word {
    if a + b >= 0x1_0000 then a + b - 0xffff else a + b
  }

  /** The one's-complement sum of a list of words. */
  function OcSum(ws: seq<Word>): Word {
    if ws == [] then 0 else OcAdd(ws[0], OcSum(ws[1..]))
  }

  /** The receiver's test: the sum over the header, checksum included, is minus zero. */
  predicate Verifies(ws: seq<Word>) {
    OcSum(ws) == MINUS_ZERO
  }

  /** HC' = ~(~HC + ~m + m'). */
  function Replace(hc: Word, old_: Word, new_: Word): Word {
    0xffff - OcAdd(OcAdd(0xffff - hc, 0xffff - old_), new_)
  }

  function Sum(ws: seq<Word>): (n: nat) {
    if ws == [] then 0 else ws[0] + Sum(ws[1..])
  }

  /** The folded sum is the residue modulo 0xffff, with 0 kept for the all-zero list only. */
  lemma {:induction false} OcSumFolds(ws: seq<Word>)
    ensures OcSum(ws) == 0 <==> Sum(ws) == 0
    ensures OcSum(ws) % 0xffff == Sum(ws) % 0xffff
    ensures Verifies(ws) <==> Sum(ws) > 0 && Sum(ws) % 0xffff == 0
  {
    if ws == [] {
    } else {
      OcSumFolds(ws[1..]);
    }
  }

  lemma {:induction false} SumUpdate(ws: seq<Word>, i: nat, w: Word)
    requires i < |ws|
    ensures Sum(ws[i := w]) == Sum(ws) - ws[i] + w
  {
    if i == 0 {
      assert ws[0 := w][1..] == ws[1..];
    } else {
      assert ws[i := w][1..] == ws[1..][i - 1 := w];
      SumUpdate(ws[1..], i - 1, w);
    }
  }

  lemma {:induction false} SumAtLeast(ws: seq<Word>, i: nat)
    requires i < |ws|
    ensures ws[i] <= Sum(ws)
  {
    if i > 0 {
      SumAtLeast(ws[1..], i - 1);
    }
  }

  /** The update changes the checksum word by old - new, up to one multiple of 0xffff. */
  lemma ReplaceShift(hc: Word, old_: Word, new_: Word) returns (k: int)
    ensures Replace(hc, old_, new_) as int == hc as int + old_ as int - new_ as int + 0xffff * k
  {
    var a: Word, b: Word := 0xffff - hc, 0xffff - old_;
    k := (if a + b >= 0x1_0000 then 1 else 0) + (if OcAdd(a, b) + new_ >= 0x1_0000 then 1 else 0) - 1;
  }

  /** The incremental update is exact: replacing one word and updating the checksum
      word by RFC 1624 keeps a valid header valid and an invalid one invalid. */
  lemma ReplaceIsExact(ws: seq<Word>, c: nat, i: nat, v: nat, w: Word)
    requires c < |ws| && i < |ws| && v < |ws| && c != i && v != c && v != i
    requires ws[v] != 0
    ensures Verifies(ws[c := Replace(ws[c], ws[i], w)][i := w]) <==> Verifies(ws)
  {
    var hc := Replace(ws[c], ws[i], w);
    var ws1 := ws[c := hc];
    var ws2 := ws1[i := w];
    var k := ReplaceShift(ws[c], ws[i], w);
    SumUpdate(ws, c, hc);
    SumUpdate(ws1, i, w);
    SumAtLeast(ws, v);
    SumAtLeast(ws2, v);
    OcSumFolds(ws);
    OcSumFolds(ws2);
    SameResidue(Sum(ws), Sum(ws2), k);
  }

  lemma SameResidue(a: int, b: int, k: int)
    requires b == a + 0xffff * k
    ensures a % 0xffff == b % 0xffff
  {
    assert b / 0xffff == a / 0xffff + k;
  }

  /** The kernel adds words in host order; on a little-endian host every operand is swapped. */
  function Swap(w: Word): Word {
    w % 256 * 256 + w / 256
  }

  /** Byte order does not matter: updating swapped words gives the swapped update. */
  lemma ReplaceIgnoresByteOrder(hc: Word, old_: Word, new_: Word)
    ensures Replace(Swap(hc), Swap(old_), Swap(new_)) == Swap(Replace(hc, old_, new_))
  {
    var a, b := 0xffff - hc, 0xffff - old_;
    SwapComplement(hc);
    SwapComplement(old_);
    SwapAdd(a, b);
    var sum := OcAdd(a, b);
    SwapAdd(sum, new_);
    SwapComplement(OcAdd(sum, new_));
  }

  lemma SwapComplement(w: Word)
    ensures Swap(0xffff - w) == 0xffff - Swap(w)
  {
    assert w == 256 * (w / 256) + w % 256;
    assert 0xffff - w == 256 * (255 - w / 256) + (255 - w % 256);
    assert (0xffff - w) / 256 == 255 - w / 256;
  }

  lemma SwapAdd(a: Word, b: Word)
    ensures OcAdd(Swap(a), Swap(b)) == Swap(OcAdd(a, b))
  {
    var lo, hi := a % 256 + b % 256, a / 256 + b / 256;
    assert a + b == 256 * hi + lo;
    assert Swap(a) + Swap(b) == 256 * lo + hi;
    SwapDigits(hi, lo, OcAdd(a, b));
  }

  /** Folding hi:lo and folding lo:hi give byte-swapped results. */
  lemma SwapDigits(hi: nat, lo: nat, r: Word)
    requires hi <= 510 && lo <= 510
    requires r == if 256 * hi + lo >= 0x1_0000 then 256 * hi + lo - 0xffff else 256 * hi + lo
    ensures Swap(r) == if 256 * lo + hi >= 0x1_0000 then 256 * lo + hi - 0xffff else 256 * lo + hi
  {
    var h, l := hi + lo / 256, lo % 256;
    assert 256 * hi + lo == 256 * h + l;
    if h < 256 {
      assert r / 256 == h && r % 256 == l;
    } else {
      assert r == 256 * (h - 256) + l + 1;
    }
  }

  /** The ten words of the 20-byte IPv4 header at offset `off`. */
  function HeaderWords(s: Frame, off: nat): (ws: seq<Word>)
    requires off + 20 <= |s|
    ensures |ws| == 10
    ensures forall k :: 0 <= k < 10 ==> ws[k] == U16(s, off + 2 * k)
  {
    seq(10, k requires 0 <= k < 10 => U16(s, off + 2 * k))
  }
}
