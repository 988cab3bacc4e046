/** Substring search over byte strings, and why a bounded tail of what went before is enough to
    find every marker that straddles two chunks. */
module ByteSearch {
  import opened Common

  predicate OccursAt(value: seq<Byte>, needle: seq<Byte>, at: int) {
    0 <= at && at + |needle| <= |value| && value[at..at + |needle|] == needle
  }

  predicate ContainsBytes(value: seq<Byte>, needle: seq<Byte>) {
    needle != [] && exists at | 0 <= at <= |value| - |needle| :: OccursAt(value, needle, at)
  }

  predicate ContainsAny(markers: seq<seq<Byte>>, value: seq<Byte>) {
    exists k | 0 <= k < |markers| :: ContainsBytes(value, markers[k])
  }

  /** The longest proper prefix of any marker: how much of the past can still matter. */
  function TailLimit(markers: seq<seq<Byte>>): (limit: nat)
    ensures forall k :: 0 <= k < |markers| ==> |markers[k]| <= limit + 1
  {
    if markers == [] then 0
    else
      assert forall k :: 1 <= k < |markers| ==> markers[k] == markers[1..][k - 1];
      Max(Max(|markers[0]| - 1, 0), TailLimit(markers[1..]))
  }

  function Suffix(s: seq<Byte>, n: nat): (r: seq<Byte>)
    ensures |r| == Min(|s|, n)
  {
    s[|s| - Min(|s|, n)..]
  }

  lemma Occurrence(value: seq<Byte>, needle: seq<Byte>) returns (at: int)
    requires ContainsBytes(value, needle)
    ensures needle != [] && OccursAt(value, needle, at)
  {
    at :| 0 <= at <= |value| - |needle| && OccursAt(value, needle, at);
  }

  lemma SliceOfSlice(value: seq<Byte>, lo: int, hi: int, from: int, to: int)
    requires 0 <= lo <= hi <= |value| && 0 <= from <= to <= hi - lo
    ensures value[lo..hi][from..to] == value[lo + from..lo + to]
  {
    var inner, outer := value[lo..hi][from..to], value[lo + from..lo + to];
    assert |inner| == |outer|;
    assert forall k :: 0 <= k < |inner| ==> inner[k] == value[lo..hi][from + k] == outer[k];
  }

  /** A needle found inside a window is found in any string the window was cut from. */
  lemma ContainsWithin(value: seq<Byte>, lo: int, hi: int, needle: seq<Byte>)
    requires 0 <= lo <= hi <= |value|
    requires ContainsBytes(value[lo..hi], needle)
    ensures ContainsBytes(value, needle)
  {
    var at := Occurrence(value[lo..hi], needle);
    SliceOfSlice(value, lo, hi, at, at + |needle|);
    assert OccursAt(value, needle, lo + at);
  }

  /** An occurrence that lies inside a window is found by searching the window. */
  lemma OccursInWindow(value: seq<Byte>, lo: int, hi: int, needle: seq<Byte>, at: int)
    requires 0 <= lo <= at && at + |needle| <= hi <= |value|
    requires needle != [] && OccursAt(value, needle, at)
    ensures ContainsBytes(value[lo..hi], needle)
  {
    SliceOfSlice(value, lo, hi, at - lo, at - lo + |needle|);
    assert OccursAt(value[lo..hi], needle, at - lo);
  }

  /** Searching the chunk, and then the tail with at most `limit` bytes of the chunk, decides
      whether the tail followed by the whole chunk holds the needle. */
  lemma BoundarySearchSuffices(tail: seq<Byte>, bytes: seq<Byte>, needle: seq<Byte>, limit: nat)
    requires |needle| <= limit + 1
    ensures ContainsBytes(tail + bytes, needle) <==>
            ContainsBytes(bytes, needle) || ContainsBytes(tail + bytes[..Min(|bytes|, limit)], needle)
  {
    var whole := tail + bytes;
    var cut := Min(|bytes|, limit);
    assert whole[|tail|..|whole|] == bytes;
    assert whole[..|tail| + cut] == tail + bytes[..cut];
    assert whole[..|tail|] == tail;
    if ContainsBytes(bytes, needle) {
      ContainsWithin(whole, |tail|, |whole|, needle);
    }
    if ContainsBytes(tail + bytes[..cut], needle) {
      ContainsWithin(whole, 0, |tail| + cut, needle);
    }
    if ContainsBytes(whole, needle) {
      var at := Occurrence(whole, needle);
      if at >= |tail| {
        OccursInWindow(whole, |tail|, |whole|, needle, at);
      } else {
        OccursInWindow(whole, 0, |tail| + cut, needle, at);
      }
    }
  }

  /** If nothing was found so far, the last `limit` bytes decide what the next chunk completes. */
  lemma TailSuffices(total: seq<Byte>, bytes: seq<Byte>, needle: seq<Byte>, limit: nat)
    requires |needle| <= limit + 1
    requires !ContainsBytes(total, needle)
    ensures ContainsBytes(total + bytes, needle) <==> ContainsBytes(Suffix(total, limit) + bytes, needle)
  {
    var whole := total + bytes;
    var lo := |total| - Min(|total|, limit);
    assert whole[lo..] == Suffix(total, limit) + bytes;
    assert whole[..|total|] == total;
    if ContainsBytes(whole[lo..], needle) {
      assert whole[lo..] == whole[lo..|whole|];
      ContainsWithin(whole, lo, |whole|, needle);
    }
    if ContainsBytes(whole, needle) {
      var at := Occurrence(whole, needle);
      if at + |needle| <= |total| {
        OccursInWindow(whole, 0, |total|, needle, at);
      } else {
        OccursInWindow(whole, lo, |whole|, needle, at);
        assert whole[lo..] == whole[lo..|whole|];
      }
    }
  }

  lemma SuffixAppend(total: seq<Byte>, bytes: seq<Byte>, limit: nat)
    ensures Suffix(total + bytes, limit) == Suffix(Suffix(total, limit) + bytes, limit)
  {
  }

  /** The two ways the code refreshes the tail both leave the last `limit` bytes of the window. */
  lemma TailRefresh(tail: seq<Byte>, bytes: seq<Byte>, limit: nat)
    ensures |bytes| >= limit ==> Suffix(tail + bytes, limit) == bytes[|bytes| - limit..]
    ensures |bytes| < limit ==>
              Suffix(tail + bytes, limit) == tail[Max(|tail| - (limit - |bytes|), 0)..] + bytes
  {
  }

  lemma ContainsAnyMonotone(markers: seq<seq<Byte>>, total: seq<Byte>, bytes: seq<Byte>)
    requires ContainsAny(markers, total)
    ensures ContainsAny(markers, total + bytes)
  {
    var k :| 0 <= k < |markers| && ContainsBytes(total, markers[k]);
    assert (total + bytes)[..|total|] == total;
    ContainsWithin(total + bytes, 0, |total|, markers[k]);
  }

  /** The two facts above, for a whole set of markers at once. */
  lemma TailSufficesForAll(markers: seq<seq<Byte>>, total: seq<Byte>, bytes: seq<Byte>)
    requires !ContainsAny(markers, total)
    ensures ContainsAny(markers, total + bytes) <==>
            ContainsAny(markers, Suffix(total, TailLimit(markers)) + bytes)
  {
    forall k | 0 <= k < |markers|
      ensures ContainsBytes(total + bytes, markers[k]) <==>
              ContainsBytes(Suffix(total, TailLimit(markers)) + bytes, markers[k])
    {
      TailSuffices(total, bytes, markers[k], TailLimit(markers));
    }
  }

  lemma BoundarySearchSufficesForAll(markers: seq<seq<Byte>>, tail: seq<Byte>, bytes: seq<Byte>)
    ensures ContainsAny(markers, tail + bytes) <==>
            ContainsAny(markers, bytes)
            || ContainsAny(markers, tail + bytes[..Min(|bytes|, TailLimit(markers))])
  {
    var boundary := tail + bytes[..Min(|bytes|, TailLimit(markers))];
    forall k | 0 <= k < |markers|
      ensures ContainsBytes(tail + bytes, markers[k]) <==>
              ContainsBytes(bytes, markers[k]) || ContainsBytes(boundary, markers[k])
    {
      BoundarySearchSuffices(tail, bytes, markers[k], TailLimit(markers));
    }
    if ContainsAny(markers, tail + bytes) {
      var k :| 0 <= k < |markers| && ContainsBytes(tail + bytes, markers[k]);
    }
  }
}
