/**
 Planning an exact block splice: from the byte range an edit changed, find the
 window of base blocks to replace and the window of target leaves to put there,
 or decline.
 */
module Splice {
  import opened Engine

  const MAXIMUM_AFFECTED_ENTRIES: nat := 256

  /** A block or leaf: its byte and UTF-16 range, its reference definitions, and whether it is supported. */
  datatype Block = Block(start: nat, end: nat, start16: nat, end16: nat, definitions: nat, unsupported: bool)

  datatype Document = Document(text: seq<bv8>, utf16: nat, blocks: seq<Block>)

  /** Adjacent non-empty blocks, in order. */
  predicate Contiguous(blocks: seq<Block>) {
    && (forall i :: 0 <= i < |blocks| ==> blocks[i].start < blocks[i].end)
    && (forall i :: 0 <= i < |blocks| - 1 ==> Adjacent(blocks, i))
  }

  predicate Adjacent(blocks: seq<Block>, i: nat)
    requires i + 1 < |blocks|
  {
    blocks[i].end == blocks[i + 1].start
  }

  /** Contiguous blocks that cover the whole text. */
  predicate Tiles(d: Document) {
    && Contiguous(d.blocks) && d.blocks != []
    && d.blocks[0].start == 0 && d.blocks[|d.blocks| - 1].end == |d.text|
  }

  lemma {:induction false} BlocksAreOrdered(blocks: seq<Block>, i: nat, j: nat)
    requires Contiguous(blocks) && i < j < |blocks|
    ensures blocks[i].end <= blocks[j].start
    decreases j
  {
    assert Adjacent(blocks, j - 1);
    if i < j - 1 {
      BlocksAreOrdered(blocks, i, j - 1);
    }
  }

  // ----------------------------------------------------------------- locating a block

  datatype Affinity = Before | After

  /** The byte a boundary offset stands for: the one before it, or the one after it, within the source. */
  function Probe(offset: nat, bytes: nat, affinity: Affinity): nat
    requires bytes > 0
  {
    match affinity
    case Before => if offset > 0 then offset - 1 else 0
    case After => if offset < bytes then offset else bytes - 1
  }

  predicate Contains(b: Block, at: nat) {
    b.start <= at < b.end
  }

  /**
   `clean_leaf_index_at`: the leaf holding the probed byte. The binary search
   finds it exactly when a plain scan would, and there is never a second one.
   */
  method LeafIndexAt(blocks: seq<Block>, offset: nat, bytes: nat, affinity: Affinity) returns (r: Option<nat>)
    requires Contiguous(blocks)
    ensures blocks == [] || bytes == 0 || offset > bytes ==> r.None?
    ensures blocks != [] && 0 < bytes && offset <= bytes ==>
      && (r.Some? ==> r.value < |blocks| && Contains(blocks[r.value], Probe(offset, bytes, affinity)))
      && (forall i :: 0 <= i < |blocks| && Contains(blocks[i], Probe(offset, bytes, affinity)) ==> r == Some(i))
  {
    if blocks == [] || bytes == 0 || offset > bytes {
      return None;
    }
    var probe := Probe(offset, bytes, affinity);
    var low, high := 0, |blocks|;
    while low < high
      invariant 0 <= low <= high <= |blocks|
      invariant forall i :: 0 <= i < low ==> blocks[i].end <= probe
      invariant forall i :: high <= i < |blocks| ==> probe < blocks[i].end
    {
      var middle := (low + high) / 2;
      if blocks[middle].end <= probe {
        forall i | 0 <= i < middle
          ensures blocks[i].end <= probe
        {
          BlocksAreOrdered(blocks, i, middle);
        }
        low := middle + 1;
      } else {
        forall i | middle < i < |blocks|
          ensures probe < blocks[i].end
        {
          BlocksAreOrdered(blocks, middle, i);
        }
        high := middle;
      }
    }
    if low < |blocks| {
      forall i | low < i < |blocks|
        ensures probe < blocks[i].start
      {
        BlocksAreOrdered(blocks, low, i);
      }
      if blocks[low].start <= probe {
        return Some(low);
      }
    }
    return None;
  }

  /** A tiled base has a block at every byte of its text, so locating one there never fails. */
  lemma {:induction false} TilesCover(d: Document, at: nat, n: nat) returns (i: nat)
    requires Tiles(d) && n < |d.blocks| && at < d.blocks[n].end
    ensures i <= n && Contains(d.blocks[i], at)
    decreases n
  {
    if n == 0 || d.blocks[n].start <= at {
      i := n;
    } else {
      assert Adjacent(d.blocks, n - 1);
      i := TilesCover(d, at, n - 1);
    }
  }

  // ------------------------------------------------------------------------- planning

  /** The changed ranges, and whether a leading-reference checkpoint vouches for the base. */
  datatype Delta = Delta(base: Document, target: Document, baseStart: nat, baseEnd: nat, targetStart: nat, targetEnd: nat,
                         sameTarget: bool, targetDefinitions: nat, leading: bool)

  /** Where the runtime says an unchanged prefix ends, or an unchanged suffix starts, in the target. */
  datatype Mark = Mark(bytes: nat, utf16: nat)

  datatype Selection = Selection(baseFirst: nat, baseEnd: nat, targetFirst: nat, targetEnd: nat)

  predicate LegalDelta(d: Delta) {
    && Tiles(d.base) && Contiguous(d.target.blocks)
    && d.baseStart <= d.baseEnd <= |d.base.text| && d.targetStart <= d.targetEnd <= |d.target.text|
    && (d.leading ==> forall i :: 0 <= i < |d.base.blocks| && d.base.blocks[i].definitions > 0 ==>
                                  d.base.blocks[i].end <= d.baseStart)
  }

  /** The runtime's answers for a prefix ending, or a suffix starting, at given byte and UTF-16 offsets. */
  type Minting = (nat, nat) -> Option<Mark>

  /** Witness contract: a minted mark is backed by equal text. */
  ghost predicate LegalMinting(d: Delta, prefixAt: Minting, suffixAt: Minting) {
    && (forall at: nat, at16: nat :: prefixAt(at, at16).Some? ==>
          && at <= |d.base.text| && prefixAt(at, at16).value.bytes <= |d.target.text|
          && d.base.text[..at] == d.target.text[..prefixAt(at, at16).value.bytes])
    && (forall at: nat, at16: nat :: suffixAt(at, at16).Some? ==>
          && at <= |d.base.text| && suffixAt(at, at16).value.bytes <= |d.target.text|
          && d.base.text[at..] == d.target.text[suffixAt(at, at16).value.bytes..])
  }

  /** Neither window holds a definition or an unsupported block. */
  predicate Plain(blocks: seq<Block>, first: nat, end: nat)
    requires first <= end <= |blocks|
  {
    forall i :: first <= i < end ==> blocks[i].definitions == 0 && !blocks[i].unsupported
  }

  /** What a selection promises. */
  ghost predicate Sound(d: Delta, s: Selection) {
    var base, target := d.base.blocks, d.target.blocks;
    && s.baseFirst < s.baseEnd <= |base| && s.targetFirst < s.targetEnd <= |target|
    && s.baseEnd - s.baseFirst <= MAXIMUM_AFFECTED_ENTRIES && s.targetEnd - s.targetFirst <= MAXIMUM_AFFECTED_ENTRIES
    && s.baseFirst == s.targetFirst
    && base[s.baseFirst].start <= d.baseStart && d.baseEnd <= base[s.baseEnd - 1].end
    && target[s.targetFirst].start <= d.targetStart && d.targetEnd <= target[s.targetEnd - 1].end
    && Plain(base, s.baseFirst, s.baseEnd) && Plain(target, s.targetFirst, s.targetEnd)
    && OutsideIdentical(d, base[s.baseFirst].start, base[s.baseEnd - 1].end,
                        target[s.targetFirst].start, target[s.targetEnd - 1].end)
    && !(base[s.baseFirst].start == 0 && base[s.baseEnd - 1].end == |d.base.text|)
  }

  ghost predicate OutsideIdentical(d: Delta, baseFrom: nat, baseTo: nat, targetFrom: nat, targetTo: nat) {
    && baseFrom <= baseTo <= |d.base.text| && targetFrom <= targetTo <= |d.target.text|
    && d.base.text[..baseFrom] == d.target.text[..targetFrom]
    && d.base.text[baseTo..] == d.target.text[targetTo..]
  }

  /** Every definition-bearing base block outside the window has the same text at the same place in the target. */
  ghost predicate DefinitionsStay(d: Delta, s: Selection) {
    forall i :: 0 <= i < |d.base.blocks| && d.base.blocks[i].definitions > 0 && !(s.baseFirst <= i < s.baseEnd) ==>
      && d.base.blocks[i].start <= d.base.blocks[i].end <= |d.base.text| && d.base.blocks[i].end <= |d.target.text|
      && d.base.text[d.base.blocks[i].start..d.base.blocks[i].end] == d.target.text[d.base.blocks[i].start..d.base.blocks[i].end]
  }

  // ------------------------------------------------------ what the planner looks for

  /** `first` and `last` hold the bytes just before and just after a changed range, and cover it. */
  predicate IsWindow(blocks: seq<Block>, bytes: nat, start: nat, end: nat, first: nat, last: nat)
    requires bytes > 0
  {
    && first <= last < |blocks| && last - first + 1 <= MAXIMUM_AFFECTED_ENTRIES
    && Contains(blocks[first], Probe(start, bytes, Before)) && Contains(blocks[last], Probe(end, bytes, After))
    && blocks[first].start <= start && end <= blocks[last].end
  }

  /** Definitions may be reused: there are none, or a leading checkpoint vouches, or no length changed. */
  predicate DefinitionsReusable(d: Delta) {
    d.targetDefinitions == 0 || d.leading || (|d.base.text| == |d.target.text| && d.base.utf16 == d.target.utf16)
  }

  predicate PrefixMatches(b: Block, t: Block, prefixAt: Minting) {
    if b.start == 0 then t.start == 0 && t.start16 == 0
    else prefixAt(b.start, b.start16) == Some(Mark(t.start, t.start16))
  }

  predicate SuffixMatches(d: Delta, b: Block, t: Block, suffixAt: Minting) {
    if b.end == |d.base.text| then t.end == |d.target.text| && t.end16 == d.target.utf16
    else suffixAt(b.end, b.end16) == Some(Mark(t.end, t.end16))
  }

  predicate Selectable(d: Delta, prefixAt: Minting, suffixAt: Minting, s: Selection) {
    var base, target := d.base.blocks, d.target.blocks;
    && d.sameTarget && d.baseStart < d.baseEnd <= |d.base.text| && d.targetStart < d.targetEnd <= |d.target.text|
    && s.baseFirst < s.baseEnd && s.targetFirst < s.targetEnd && s.baseFirst == s.targetFirst
    && IsWindow(base, |d.base.text|, d.baseStart, d.baseEnd, s.baseFirst, s.baseEnd - 1)
    && IsWindow(target, |d.target.text|, d.targetStart, d.targetEnd, s.targetFirst, s.targetEnd - 1)
    && !(base[s.baseFirst].start == 0 && base[s.baseEnd - 1].end == |d.base.text|)
    && Plain(base, s.baseFirst, s.baseEnd) && Plain(target, s.targetFirst, s.targetEnd)
    && DefinitionsReusable(d)
    && PrefixMatches(base[s.baseFirst], target[s.targetFirst], prefixAt)
    && SuffixMatches(d, base[s.baseEnd - 1], target[s.targetEnd - 1], suffixAt)
  }

  /** The unique window around a changed range, if the blocks have one. */
  method FindWindow(blocks: seq<Block>, bytes: nat, start: nat, end: nat) returns (found: bool, first: nat, last: nat)
    requires Contiguous(blocks) && start < end <= bytes
    ensures found ==> IsWindow(blocks, bytes, start, end, first, last)
    ensures forall f: nat, l: nat :: IsWindow(blocks, bytes, start, end, f, l) ==> found && f == first && l == last
  {
    found, first, last := false, 0, 0;
    var low := LeafIndexAt(blocks, start, bytes, Before);
    var high := LeafIndexAt(blocks, end, bytes, After);
    if low.Some? && high.Some? {
      first, last := low.value, high.value;
      found := && first <= last && last - first + 1 <= MAXIMUM_AFFECTED_ENTRIES
               && blocks[first].start <= start && end <= blocks[last].end;
    }
  }

  /** Walks a window block by block, as the planner walks the base. */
  method WindowIsPlain(blocks: seq<Block>, first: nat, end: nat) returns (plain: bool)
    requires first <= end <= |blocks|
    ensures plain == Plain(blocks, first, end)
  {
    var i := first;
    var definitions := 0;
    while i < end
      invariant first <= i <= end && definitions >= 0
      invariant forall j :: first <= j < i ==> !blocks[j].unsupported
      invariant definitions == 0 <==> forall j :: first <= j < i ==> blocks[j].definitions == 0
    {
      if blocks[i].unsupported {
        return false;
      }
      definitions := definitions + blocks[i].definitions;
      i := i + 1;
    }
    return definitions == 0;
  }

  /** `plan_exact_clean_block_splice`: it selects exactly the one selectable pair of windows, if there is one. */
  method PlanExactSplice(d: Delta, prefixAt: Minting, suffixAt: Minting) returns (r: Option<Selection>)
    requires LegalDelta(d)
    ensures r.Some? ==> Selectable(d, prefixAt, suffixAt, r.value)
    ensures r.None? ==> forall s: Selection :: !Selectable(d, prefixAt, suffixAt, s)
  {
    if !d.sameTarget || d.baseStart == d.baseEnd || d.targetStart == d.targetEnd || d.target.blocks == [] {
      return None;
    }
    var base, target := d.base.blocks, d.target.blocks;
    var baseFound, baseFirst, baseLast := FindWindow(base, |d.base.text|, d.baseStart, d.baseEnd);
    if !baseFound || (base[baseFirst].start == 0 && base[baseLast].end == |d.base.text|) {
      return None;
    }
    var targetFound, targetFirst, targetLast := FindWindow(target, |d.target.text|, d.targetStart, d.targetEnd);
    if !targetFound || baseFirst != targetFirst {
      return None;
    }
    var basePlain := WindowIsPlain(base, baseFirst, baseLast + 1);
    var targetPlain := WindowIsPlain(target, targetFirst, targetLast + 1);
    if !basePlain || !targetPlain || !DefinitionsReusable(d)
       || !PrefixMatches(base[baseFirst], target[targetFirst], prefixAt)
       || !SuffixMatches(d, base[baseLast], target[targetLast], suffixAt)
    {
      return None;
    }
    return Some(Selection(baseFirst, baseLast + 1, targetFirst, targetLast + 1));
  }

  // ------------------------------------------------------------------------ soundness

  lemma BlocksWithinText(d: Document, i: nat)
    requires Tiles(d) && i < |d.blocks|
    ensures d.blocks[i].end <= |d.text|
  {
    if i < |d.blocks| - 1 {
      BlocksAreOrdered(d.blocks, i, |d.blocks| - 1);
    }
  }

  /**
   Splice windows are sound: outside them base and target text are identical,
   they cover the changed ranges, hold at most 256 entries each, start at the
   same ordinal, and contain no definition.
   */
  lemma SelectedWindowsAreSound(d: Delta, prefixAt: Minting, suffixAt: Minting, s: Selection)
    requires LegalDelta(d) && LegalMinting(d, prefixAt, suffixAt) && Selectable(d, prefixAt, suffixAt, s)
    ensures Sound(d, s)
  {
    var base, target := d.base.blocks, d.target.blocks;
    var b, t := base[s.baseEnd - 1], target[s.targetEnd - 1];
    BlocksWithinText(d.base, s.baseEnd - 1);
    if s.baseFirst < s.baseEnd - 1 {
      BlocksAreOrdered(base, s.baseFirst, s.baseEnd - 1);
    }
    if s.targetFirst < s.targetEnd - 1 {
      BlocksAreOrdered(target, s.targetFirst, s.targetEnd - 1);
    }
    if b.end < |d.base.text| {
      assert suffixAt(b.end, b.end16).Some?;
    }
    if base[s.baseFirst].start > 0 {
      assert prefixAt(base[s.baseFirst].start, base[s.baseFirst].start16).Some?;
    }
  }

  /** A reused definition keeps its absolute coordinates: the same text is at the same place in the target. */
  lemma ReusedDefinitionsStay(d: Delta, prefixAt: Minting, suffixAt: Minting, s: Selection)
    requires LegalDelta(d) && LegalMinting(d, prefixAt, suffixAt) && Selectable(d, prefixAt, suffixAt, s)
    requires d.targetDefinitions != 0
    ensures DefinitionsStay(d, s)
  {
    SelectedWindowsAreSound(d, prefixAt, suffixAt, s);
    var base := d.base.blocks;
    forall i | 0 <= i < |base| && base[i].definitions > 0 && !(s.baseFirst <= i < s.baseEnd)
      ensures base[i].start <= base[i].end <= |d.base.text| && base[i].end <= |d.target.text|
      ensures d.base.text[base[i].start..base[i].end] == d.target.text[base[i].start..base[i].end]
    {
      BlocksWithinText(d.base, i);
      if i < s.baseFirst {
        BlocksAreOrdered(base, i, s.baseFirst);
        SameSlice(d.base.text, d.target.text, base[s.baseFirst].start, d.target.blocks[s.targetFirst].start, base[i].start, base[i].end);
      } else {
        BlocksAreOrdered(base, s.baseEnd - 1, i);
        SameTail(d.base.text, d.target.text, base[s.baseEnd - 1].end, d.target.blocks[s.targetEnd - 1].end, base[i].start, base[i].end);
      }
    }
  }

  lemma SameSlice(a: seq<bv8>, b: seq<bv8>, p: nat, q: nat, from: nat, to: nat)
    requires p <= |a| && q <= |b| && a[..p] == b[..q] && from <= to <= p
    ensures p == q && a[from..to] == b[from..to]
  {
    assert |a[..p]| == p && |b[..q]| == q;
    assert a[..p][from..to] == a[from..to];
    assert b[..q][from..to] == b[from..to];
  }

  lemma SameTail(a: seq<bv8>, b: seq<bv8>, p: nat, q: nat, from: nat, to: nat)
    requires p <= |a| && q <= |b| && a[p..] == b[q..] && |a| == |b| && p <= from <= to <= |a|
    ensures p == q && a[from..to] == b[from..to]
  {
    assert |a[p..]| == |a| - p && |b[q..]| == |b| - q;
    assert a[p..][from - p..to - p] == a[from..to];
    assert b[q..][from - p..to - p] == b[from..to];
  }
}
