/** Basis-point sampling: the two threshold tests, how many samples each basis point selects, and why
    raising it only ever adds. */
module Sampling {
  import opened Common
  import opened HexCodec

  const TWO_64: nat := U64_MAX + 1
  const U128_MAX: nat := 0xFFFF_FFFF_FFFF_FFFF_FFFF_FFFF_FFFF_FFFF

  type U64 = n: int | 0 <= n <= U64_MAX
  type U16 = n: int | 0 <= n < 0x1_0000

  /** The route sampler. */
  predicate Selected(sample: U64, basisPoints: U16) {
    sample < basisPoints * TWO_64 / 10_000
  }

  /** The capture sampler, with its two early answers. */
  predicate CaptureSampleSelected(sample: U64, basisPoints: U16) {
    if basisPoints == 0 then false
    else if basisPoints >= 10_000 then true
    else sample < basisPoints * (U64_MAX + 1) / 10_000
  }

  /** The first eight bytes of a tag as a big-endian number. */
  function BigEndian(bytes: seq<Byte>): (n: nat)
    ensures bytes == [] ==> n == 0
  {
    if bytes == [] then 0 else 256 * BigEndian(bytes[..|bytes| - 1]) + bytes[|bytes| - 1]
  }

  function Pow256(n: nat): (p: nat)
    ensures p > 0
  {
    if n == 0 then 1 else 256 * Pow256(n - 1)
  }

  lemma {:induction false} BigEndianBound(bytes: seq<Byte>)
    ensures BigEndian(bytes) < Pow256(|bytes|)
  {
    if bytes != [] {
      BigEndianBound(bytes[..|bytes| - 1]);
    }
  }

  function SampleOf(tag: Digest): U64 {
    BigEndianBound(tag[..8]);
    assert Pow256(8) == TWO_64 by {
      assert Pow256(2) == 0x1_0000;
      assert Pow256(4) == 0x1_0000_0000;
      assert Pow256(6) == 0x1_0000_0000_0000;
    }
    BigEndian(tag[..8])
  }

  lemma MoreBasisPointsSelectMore(sample: U64, fewer: U16, more: U16)
    requires fewer <= more
    ensures Selected(sample, fewer) ==> Selected(sample, more)
  {
  }

  ghost function SelectedSamples(basisPoints: U16): set<int> {
    set s: int | 0 <= s < TWO_64 && Selected(s, basisPoints)
  }

  ghost function Below(n: nat): (numbers: set<int>)
    ensures |numbers| == n
    ensures forall s :: s in numbers <==> 0 <= s < n
  {
    if n == 0 then {} else Below(n - 1) + {n - 1}
  }

  function Share(basisPoints: U16): (n: nat)
    ensures basisPoints * TWO_64 <= U128_MAX
    ensures n <= TWO_64
  {
    Min(TWO_64, basisPoints * TWO_64 / 10_000)
  }

  lemma SamplersAgree(sample: U64, basisPoints: U16)
    ensures Selected(sample, basisPoints) == CaptureSampleSelected(sample, basisPoints)
    ensures Selected(sample, basisPoints) <==> sample < Share(basisPoints)
  {
  }

  /** Exactly the basis-point share of all samples, rounded down, is selected, by either sampler. */
  lemma BasisPointShare(basisPoints: U16)
    ensures |SelectedSamples(basisPoints)| == Share(basisPoints)
    ensures |set s: int | 0 <= s < TWO_64 && CaptureSampleSelected(s, basisPoints)| == Share(basisPoints)
  {
    var n := Share(basisPoints);
    forall s: int | 0 <= s < TWO_64
      ensures Selected(s, basisPoints) <==> s in Below(n)
      ensures CaptureSampleSelected(s, basisPoints) <==> s in Below(n)
    {
      SamplersAgree(s, basisPoints);
    }
    assert SelectedSamples(basisPoints) == Below(n);
    assert (set s: int | 0 <= s < TWO_64 && CaptureSampleSelected(s, basisPoints)) == Below(n);
  }
}
