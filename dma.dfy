/**
 * DMA buffer descriptors and the circular ring the I2S peripheral walks.
 *
 * A descriptor's link to the next descriptor is modelled as an index into the
 * descriptor array that holds it (an arena), instead of a raw address.
 * A data pointer is a byte block together with a byte offset into it, so that
 * pointer arithmetic such as `p - k` stays expressible.
 */
module Dma {

  /** A byte pointer: `block` is the allocation (null for the null pointer). */
  datatype Ptr = Ptr(block: array?<bv8>, offset: int)

  const NullPtr: Ptr := Ptr(null, 0)

  /** Pointer arithmetic `p + delta` on a byte pointer. */
  function Offset(p: Ptr, delta: int): (q: Ptr)
    ensures q.block == p.block && q.offset - p.offset == delta
  {
    Ptr(p.block, p.offset + delta)
  }

  /** The `next` link of a descriptor: not yet linked, or the index of the next one. */
  datatype Link = Unlinked | Next(index: nat)

  /** One DMA descriptor: data buffer, its byte length and the link to the next descriptor. */
  datatype Descriptor = Descriptor(buf: Ptr, length: nat, next: Link)

  /** A freshly allocated descriptor: no buffer, no length, no link. */
  const EmptyDescriptor: Descriptor := Descriptor(NullPtr, 0, Unlinked)

  /** Bytes per sample the DMA engine counts (32-bit samples). */
  const BytesPerSample: nat := 4

  /** Number of samples held by a descriptor's buffer. */
  function SampleCount(d: Descriptor): (n: nat)
    ensures n * BytesPerSample <= d.length < (n + 1) * BytesPerSample
  {
    d.length / BytesPerSample
  }

  /** `setBuffer`: repoint a descriptor at another buffer, keeping its link. */
  function SetBuffer(d: Descriptor, p: Ptr, bytes: nat): (e: Descriptor)
    ensures e.buf == p && e.length == bytes && e.next == d.next
  {
    d.(buf := p, length := bytes)
  }

  /** The ring invariant: descriptor i links to i+1 and the last one back to 0. */
  ghost predicate IsRing(s: seq<Descriptor>)
  {
    |s| > 0 && forall i :: 0 <= i < |s| ==> s[i].next == Next((i + 1) % |s|)
  }

  /** Following `next` k times from descriptor i. */
  function Follow(s: seq<Descriptor>, i: nat, k: nat): (j: nat)
    requires IsRing(s) && i < |s|
    ensures j < |s|
    decreases k
  {
    if k == 0 then i else Follow(s, s[i].next.index, k - 1)
  }

  /** A chain 0 -> 1 -> ... -> n-1 whose last link goes back to 0 is a ring. */
  lemma ChainClosedIsRing(s: seq<Descriptor>)
    requires |s| > 0
    requires forall k :: 0 <= k && k + 1 < |s| ==> s[k].next == Next(k + 1)
    requires s[|s| - 1].next == Next(0)
    ensures IsRing(s)
  {
    forall k | 0 <= k < |s|
      ensures s[k].next == Next((k + 1) % |s|)
    {
      if k + 1 < |s| {
        assert (k + 1) % |s| == k + 1;
      }
    }
  }

  /** One step from descriptor i reaches i+1, or 0 from the last descriptor. */
  lemma NextInRing(s: seq<Descriptor>, i: nat)
    requires IsRing(s) && i < |s|
    ensures s[i].next.index == if i + 1 < |s| then i + 1 else 0
  {
    assert s[i].next == Next((i + 1) % |s|);
  }

  /** Walking a+b steps is walking a steps and then b more. */
  lemma {:induction false} FollowAdd(s: seq<Descriptor>, i: nat, a: nat, b: nat)
    requires IsRing(s) && i < |s|
    ensures Follow(s, i, a + b) == Follow(s, Follow(s, i, a), b)
    decreases a
  {
    if a > 0 {
      FollowAdd(s, s[i].next.index, a - 1, b);
    }
  }

  /** Before wrapping around, k steps from i reach i+k. */
  lemma {:induction false} FollowForward(s: seq<Descriptor>, i: nat, k: nat)
    requires IsRing(s) && i + k < |s|
    ensures Follow(s, i, k) == i + k
    decreases k
  {
    if k > 0 {
      NextInRing(s, i);
      FollowForward(s, i + 1, k - 1);
    }
  }

  /** Circularity: following `next` exactly |s| times from any descriptor
      returns to it, and no shorter non-empty walk does. */
  lemma RingReturns(s: seq<Descriptor>, i: nat)
    requires IsRing(s) && i < |s|
    ensures Follow(s, i, |s|) == i
    ensures forall k :: 0 < k < |s| ==> Follow(s, i, k) != i
  {
    var n := |s|;
    // i --(n-1-i)--> n-1 --1--> 0 --i--> i
    FollowForward(s, i, n - 1 - i);
    NextInRing(s, n - 1);
    FollowAdd(s, i, n - 1 - i, 1);
    assert Follow(s, i, n - i) == 0;
    FollowAdd(s, i, n - i, i);
    FollowForward(s, 0, i);
    forall k | 0 < k < n
      ensures Follow(s, i, k) != i
    {
      if i + k < n {
        FollowForward(s, i, k);
      } else {
        FollowAdd(s, i, n - i, i + k - n);
        FollowForward(s, 0, i + k - n);
      }
    }
  }

  /** Rewriting only buffers and lengths keeps the ring topology. */
  lemma RepointKeepsRing(s: seq<Descriptor>, t: seq<Descriptor>)
    requires |s| == |t|
    requires forall j :: 0 <= j < |s| ==> t[j].next == s[j].next
    ensures IsRing(s) <==> IsRing(t)
  {
  }
}
