/**
 Byte ranges of a source text: normalization, and the escape scan that walks
 text and exclusions with two cursors.
 */
module Ranges {

  datatype Range = Range(start: nat, end: nat)

  type Byte = x: int | 0 <= x < 256

  const BACKSLASH: Byte := 0x5C

  // -------------------------------------------------------------------- normalization

  function Min(a: nat, b: nat): nat {
    if a <= b then a else b
  }

  function Clamp(r: Range, len: nat): Range {
    Range(Min(r.start, len), Min(r.end, len))
  }

  /** Clamped ranges that are not empty, in their original order. */
  function Clamped(ranges: seq<Range>, len: nat): seq<Range> {
    if ranges == [] then []
    else
      var r := Clamp(ranges[0], len);
      (if r.start < r.end then [r] else []) + Clamped(ranges[1..], len)
  }

  predicate Below(a: Range, b: Range) {
    a.start < b.start || (a.start == b.start && a.end <= b.end)
  }

  predicate Sorted(ranges: seq<Range>) {
    forall i, j :: 0 <= i < j < |ranges| ==> Below(ranges[i], ranges[j])
  }

  function InsertSorted(r: Range, ranges: seq<Range>): seq<Range> {
    if ranges == [] then [r]
    else if Below(r, ranges[0]) then [r] + ranges
    else [ranges[0]] + InsertSorted(r, ranges[1..])
  }

  /** Stands for the library's sort by start, then end. */
  function Sort(ranges: seq<Range>): seq<Range> {
    if ranges == [] then [] else InsertSorted(ranges[0], Sort(ranges[1..]))
  }

  /** Keeps each range that does not begin inside the last one kept. */
  function Dedup(kept: seq<Range>, ranges: seq<Range>): seq<Range>
    decreases |ranges|
  {
    if ranges == [] then kept
    else if kept != [] && ranges[0].start < kept[|kept| - 1].end then Dedup(kept, ranges[1..])
    else Dedup(kept + [ranges[0]], ranges[1..])
  }

  function Normalize(ranges: seq<Range>, len: nat): seq<Range> {
    Dedup([], Sort(Clamped(ranges, len)))
  }

  /** Non-empty, in bounds, in order and disjoint. */
  predicate Normalized(ranges: seq<Range>, len: nat) {
    && (forall i :: 0 <= i < |ranges| ==> ranges[i].start < ranges[i].end <= len)
    && (forall i, j :: 0 <= i < j < |ranges| ==> ranges[i].end <= ranges[j].start)
  }

  predicate Overlaps(a: Range, b: Range) {
    a.start < b.end && b.start < a.end
  }

  method ClampAll(input: seq<Range>, len: nat) returns (clamped: seq<Range>)
    ensures clamped == Clamped(input, len)
  {
    clamped := [];
    var i := 0;
    while i < |input|
      invariant i <= |input| && Clamped(input, len) == clamped + Clamped(input[i..], len)
    {
      var r := Clamp(input[i], len);
      ghost var rest := Clamped(input[i + 1..], len);
      assert input[i..][0] == input[i] && input[i..][1..] == input[i + 1..];
      if r.start < r.end {
        assert clamped + ([r] + rest) == clamped + [r] + rest;
        clamped := clamped + [r];
      } else {
        assert [] + rest == rest;
      }
      i := i + 1;
    }
    assert input[i..] == [];
  }

  method DedupSorted(ranges: seq<Range>) returns (deduped: seq<Range>)
    ensures deduped == Dedup([], ranges)
  {
    deduped := [];
    var i := 0;
    while i < |ranges|
      invariant i <= |ranges| && Dedup([], ranges) == Dedup(deduped, ranges[i..])
    {
      assert ranges[i..][0] == ranges[i] && ranges[i..][1..] == ranges[i + 1..];
      if deduped == [] || ranges[i].start >= deduped[|deduped| - 1].end {
        deduped := deduped + [ranges[i]];
      }
      i := i + 1;
    }
    assert ranges[i..] == [];
  }

  /** `normalize_ranges`: clamp and filter in place, sort, then one pass over the sorted ranges. */
  method NormalizeRanges(input: seq<Range>, len: nat) returns (deduped: seq<Range>)
    ensures deduped == Normalize(input, len)
  {
    var clamped := ClampAll(input, len);
    deduped := DedupSorted(Sort(clamped));
  }

  lemma {:induction false} ClampedMembers(ranges: seq<Range>, len: nat, r: Range)
    ensures r in Clamped(ranges, len) <==> r.start < r.end && exists i :: 0 <= i < |ranges| && r == Clamp(ranges[i], len)
  {
    if ranges != [] {
      ClampedMembers(ranges[1..], len, r);
      var c := Clamp(ranges[0], len);
      if r in Clamped(ranges[1..], len) {
        var i :| 0 <= i < |ranges[1..]| && r == Clamp(ranges[1..][i], len);
        assert ranges[1..][i] == ranges[i + 1];
      }
      if exists i :: 0 < i < |ranges| && r == Clamp(ranges[i], len) {
        var i :| 0 < i < |ranges| && r == Clamp(ranges[i], len);
        assert ranges[i] == ranges[1..][i - 1];
      }
    }
  }

  lemma {:induction false} InsertMembers(r: Range, ranges: seq<Range>)
    ensures multiset(InsertSorted(r, ranges)) == multiset(ranges) + multiset{r}
  {
    if ranges != [] {
      assert ranges == [ranges[0]] + ranges[1..];
      if !Below(r, ranges[0]) {
        InsertMembers(r, ranges[1..]);
      }
    }
  }

  lemma SortedHead(ranges: seq<Range>, x: Range)
    requires Sorted(ranges) && ranges != [] && x in ranges[1..]
    ensures Below(ranges[0], x)
  {
    var k :| 0 <= k < |ranges[1..]| && ranges[1..][k] == x;
    assert x == ranges[k + 1];
  }

  lemma SortedCons(head: Range, rest: seq<Range>)
    requires Sorted(rest) && forall x :: x in rest ==> Below(head, x)
    ensures Sorted([head] + rest)
  {
  }

  lemma {:induction false} InsertKeeps(r: Range, ranges: seq<Range>)
    requires Sorted(ranges)
    ensures Sorted(InsertSorted(r, ranges))
  {
    hide Sorted;
    if ranges == [] {
      SortedOne(r);
    } else {
      SortedTail(ranges);
      if Below(r, ranges[0]) {
        forall x | x in ranges
          ensures Below(r, x)
        {
          if x != ranges[0] {
            assert x in ranges[1..];
            SortedHead(ranges, x);
          }
        }
        SortedCons(r, ranges);
      } else {
        InsertKeeps(r, ranges[1..]);
        var placed := InsertSorted(r, ranges[1..]);
        InsertMembers(r, ranges[1..]);
        forall x | x in placed
          ensures Below(ranges[0], x)
        {
          assert x in multiset(placed);
          if x in ranges[1..] {
            SortedHead(ranges, x);
          }
        }
        SortedCons(ranges[0], placed);
      }
    }
  }

  lemma SortedOne(r: Range)
    ensures Sorted([r])
  {
  }

  lemma SortedTail(ranges: seq<Range>)
    requires Sorted(ranges) && ranges != []
    ensures Sorted(ranges[1..])
  {
  }

  lemma {:induction false} SortSorts(ranges: seq<Range>)
    ensures Sorted(Sort(ranges)) && multiset(Sort(ranges)) == multiset(ranges)
  {
    if ranges != [] {
      SortSorts(ranges[1..]);
      InsertKeeps(ranges[0], Sort(ranges[1..]));
      InsertMembers(ranges[0], Sort(ranges[1..]));
      assert ranges == [ranges[0]] + ranges[1..];
    }
  }

  /** Kept ranges, then what is still to come: all legal, in order. */
  predicate DedupReady(kept: seq<Range>, ranges: seq<Range>, len: nat) {
    && Normalized(kept, len) && Sorted(ranges)
    && (forall i :: 0 <= i < |ranges| ==> ranges[i].start < ranges[i].end <= len)
    && (kept != [] ==> forall i :: 0 <= i < |ranges| ==> kept[|kept| - 1].start <= ranges[i].start)
  }

  predicate Skips(kept: seq<Range>, r: Range) {
    kept != [] && r.start < kept[|kept| - 1].end
  }

  lemma DedupStep(kept: seq<Range>, ranges: seq<Range>, len: nat)
    requires DedupReady(kept, ranges, len) && ranges != []
    ensures DedupReady(if Skips(kept, ranges[0]) then kept else kept + [ranges[0]], ranges[1..], len)
  {
    var rest := ranges[1..];
    forall i | 0 <= i < |rest|
      ensures ranges[0].start <= rest[i].start && rest[i].start < rest[i].end <= len
    {
      assert rest[i] == ranges[i + 1] && Below(ranges[0], ranges[i + 1]);
    }
    SortedTail(ranges);
    if !Skips(kept, ranges[0]) && kept != [] {
      EndsInOrder(kept, len);
    }
  }

  lemma {:induction false} DedupKeeps(kept: seq<Range>, ranges: seq<Range>, len: nat)
    requires DedupReady(kept, ranges, len)
    ensures Normalized(Dedup(kept, ranges), len)
    ensures kept <= Dedup(kept, ranges)
    ensures forall r :: r in Dedup(kept, ranges) ==> r in kept || r in ranges
    decreases |ranges|
  {
    hide DedupReady;
    if ranges == [] {
      ReadyIsNormalized(kept, ranges, len);
    } else {
      DedupStep(kept, ranges, len);
      DedupKeeps(if Skips(kept, ranges[0]) then kept else kept + [ranges[0]], ranges[1..], len);
    }
  }

  lemma ReadyIsNormalized(kept: seq<Range>, ranges: seq<Range>, len: nat)
    requires DedupReady(kept, ranges, len)
    ensures Normalized(kept, len)
  {
  }

  /** The last range kept covers the one being decided: it is that one, or contains its start. */
  lemma {:induction false} DedupCovers(kept: seq<Range>, ranges: seq<Range>, len: nat, r: Range)
    requires DedupReady(kept, ranges, len) && r in ranges
    ensures exists k :: k in Dedup(kept, ranges) && Overlaps(r, k)
    decreases |ranges|
  {
    var kept' := if Skips(kept, ranges[0]) then kept else kept + [ranges[0]];
    DedupStep(kept, ranges, len);
    if r == ranges[0] {
      DedupKeeps(kept', ranges[1..], len);
      var cover := kept'[|kept'| - 1];
      assert Dedup(kept', ranges[1..])[|kept'| - 1] == cover;
      assert cover in Dedup(kept, ranges) && Overlaps(r, cover);
    } else {
      assert r in ranges[1..];
      DedupCovers(kept', ranges[1..], len, r);
    }
  }

  lemma EndsInOrder(kept: seq<Range>, len: nat)
    requires Normalized(kept, len) && kept != []
    ensures forall i :: 0 <= i < |kept| ==> kept[i].end <= kept[|kept| - 1].end
  {
  }

  /**
   Normalization yields sorted, disjoint, in-bounds members of the clamped input,
   and every non-empty range it drops overlaps one it keeps.
   */
  lemma NormalizeIsSound(ranges: seq<Range>, len: nat, i: nat)
    requires i < |ranges|
    ensures Normalized(Normalize(ranges, len), len)
    ensures forall r :: r in Normalize(ranges, len) ==> r in Clamped(ranges, len)
    ensures var c := Clamp(ranges[i], len);
      c.start < c.end ==> exists k :: k in Normalize(ranges, len) && Overlaps(c, k)
  {
    hide DedupReady, Normalized, Overlaps, Sorted;
    var clamped := Clamped(ranges, len);
    SortedClampedIsReady(ranges, len);
    DedupKeeps([], Sort(clamped), len);
    var c := Clamp(ranges[i], len);
    if c.start < c.end {
      ClampedMembers(ranges, len, c);
      SortMembers(clamped, c);
      DedupCovers([], Sort(clamped), len, c);
    }
  }

  lemma SortMembers(ranges: seq<Range>, r: Range)
    ensures r in Sort(ranges) <==> r in ranges
  {
    SortSorts(ranges);
    assert r in Sort(ranges) <==> r in multiset(Sort(ranges));
    assert r in ranges <==> r in multiset(ranges);
  }

  lemma SortedClampedIsReady(ranges: seq<Range>, len: nat)
    ensures DedupReady([], Sort(Clamped(ranges, len)), len)
    ensures forall r :: r in Sort(Clamped(ranges, len)) ==> r in Clamped(ranges, len)
  {
    hide Sorted, Sort, Clamped;
    var clamped := Clamped(ranges, len);
    var sorted := Sort(clamped);
    SortSorts(clamped);
    forall r | r in sorted
      ensures r in clamped && r.start < r.end <= len
    {
      SortMembers(clamped, r);
      ClampedMembers(ranges, len, r);
    }
    assert forall i :: 0 <= i < |sorted| ==> sorted[i] in sorted;
  }

  lemma {:induction false} ClampedIsSame(ranges: seq<Range>, len: nat)
    requires forall i :: 0 <= i < |ranges| ==> ranges[i].start < ranges[i].end <= len
    ensures Clamped(ranges, len) == ranges
  {
    if ranges != [] {
      assert forall i :: 0 <= i < |ranges[1..]| ==> ranges[1..][i] == ranges[i + 1];
      ClampedIsSame(ranges[1..], len);
    }
  }

  lemma {:induction false} SortIsSame(ranges: seq<Range>)
    requires Sorted(ranges)
    ensures Sort(ranges) == ranges
  {
    hide Sorted;
    if ranges != [] {
      SortedTail(ranges);
      SortIsSame(ranges[1..]);
      if |ranges| > 1 {
        assert ranges[1..][0] == ranges[1];
        SortedHead(ranges, ranges[1]);
      }
      assert ranges == [ranges[0]] + ranges[1..];
    }
  }

  lemma {:induction false} DedupIsSame(kept: seq<Range>, ranges: seq<Range>, len: nat)
    requires Normalized(kept + ranges, len)
    ensures Dedup(kept, ranges) == kept + ranges
    decreases |ranges|
  {
    if ranges != [] {
      assert (kept + ranges)[|kept|] == ranges[0];
      if kept != [] {
        assert (kept + ranges)[|kept| - 1] == kept[|kept| - 1];
      }
      assert kept + [ranges[0]] + ranges[1..] == kept + ranges;
      DedupIsSame(kept + [ranges[0]], ranges[1..], len);
    }
  }

  /** Already normalized ranges are left alone, so normalizing twice is normalizing once. */
  lemma NormalizeIsIdempotent(ranges: seq<Range>, len: nat)
    ensures Normalize(Normalize(ranges, len), len) == Normalize(ranges, len)
    ensures Normalized(ranges, len) ==> Normalize(ranges, len) == ranges
  {
    var once := Normalize(ranges, len);
    if ranges != [] {
      NormalizeIsSound(ranges, len, 0);
    }
    NormalizedIsFixed(once, len);
    if Normalized(ranges, len) {
      NormalizedIsFixed(ranges, len);
    }
  }

  lemma NormalizedIsFixed(ranges: seq<Range>, len: nat)
    requires Normalized(ranges, len)
    ensures Normalize(ranges, len) == ranges
  {
    ClampedIsSame(ranges, len);
    SortIsSame(ranges);
    DedupIsSame([], ranges, len);
    assert [] + ranges == ranges;
  }

  // ------------------------------------------------------------------------- escaping

  predicate IsPunctuation(b: Byte) {
    (0x21 <= b <= 0x2F) || (0x3A <= b <= 0x40) || (0x5B <= b <= 0x60) || (0x7B <= b <= 0x7E)
  }

  /** The length of the run of backslashes that ends just before `offset`. */
  function BackslashRun(bytes: seq<Byte>, offset: nat): nat
    requires offset <= |bytes|
  {
    if offset == 0 || bytes[offset - 1] != BACKSLASH then 0 else BackslashRun(bytes, offset - 1) + 1
  }

  /**
   Read left to right, as section 2.4 of the CommonMark specification does: a
   character is escaped by a backslash that is not itself escaped.
   */
  predicate Escaped(bytes: seq<Byte>, offset: nat)
    requires offset <= |bytes|
  {
    offset > 0 && bytes[offset - 1] == BACKSLASH && !Escaped(bytes, offset - 1)
  }

  /** Counting backwards finds the same escapes as reading forwards. */
  lemma {:induction false} OddRunIsEscaped(bytes: seq<Byte>, offset: nat)
    requires offset <= |bytes|
    ensures Escaped(bytes, offset) <==> BackslashRun(bytes, offset) % 2 == 1
  {
    if offset > 0 && bytes[offset - 1] == BACKSLASH {
      OddRunIsEscaped(bytes, offset - 1);
    }
  }

  /** `is_escaped_at`: counts the backslashes before `offset`. */
  method IsEscapedAt(bytes: seq<Byte>, offset: nat) returns (escaped: bool)
    ensures escaped <==> offset <= |bytes| && Escaped(bytes, offset)
  {
    if offset == 0 || offset > |bytes| {
      return false;
    }
    var backslashes, cursor := 0, offset;
    while cursor > 0 && bytes[cursor - 1] == BACKSLASH
      invariant 0 <= cursor <= offset <= |bytes|
      invariant BackslashRun(bytes, offset) == backslashes + BackslashRun(bytes, cursor)
    {
      cursor := cursor - 1;
      backslashes := backslashes + 1;
    }
    OddRunIsEscaped(bytes, offset);
    return backslashes % 2 == 1;
  }

  predicate Excluded(exclusions: seq<Range>, at: nat) {
    exists i :: 0 <= i < |exclusions| && exclusions[i].start <= at < exclusions[i].end
  }

  predicate Marked(bytes: seq<Byte>, exclusions: seq<Range>, at: nat)
    requires at < |bytes|
  {
    !Excluded(exclusions, at) && IsPunctuation(bytes[at]) && Escaped(bytes, at)
  }

  /** The plain scan: look at every offset, and at every exclusion for each of them. */
  function EscapeMarkers(bytes: seq<Byte>, exclusions: seq<Range>, from: nat): seq<Range>
    requires from <= |bytes|
    decreases |bytes| - from
  {
    if from == |bytes| then []
    else
      (if Marked(bytes, exclusions, from) then [Range(from - 1, from)] else []) + EscapeMarkers(bytes, exclusions, from + 1)
  }

  lemma {:induction false} SkipExcluded(bytes: seq<Byte>, exclusions: seq<Range>, from: nat, to: nat)
    requires from <= to <= |bytes| && forall at :: from <= at < to ==> Excluded(exclusions, at)
    ensures EscapeMarkers(bytes, exclusions, from) == EscapeMarkers(bytes, exclusions, to)
    decreases |bytes| - from
  {
    if from < to {
      SkipExcluded(bytes, exclusions, from + 1, to);
    }
  }

  /** With the passed exclusions behind the cursor, only the current one can contain it. */
  lemma OnlyCurrentExcludes(exclusions: seq<Range>, len: nat, current: nat, cursor: nat)
    requires Normalized(exclusions, len) && current <= |exclusions|
    requires forall i :: 0 <= i < current ==> exclusions[i].end <= cursor
    requires current < |exclusions| ==> cursor < exclusions[current].end
    ensures Excluded(exclusions, cursor) <==> current < |exclusions| && exclusions[current].start <= cursor
  {
    if Excluded(exclusions, cursor) {
      var i :| 0 <= i < |exclusions| && exclusions[i].start <= cursor < exclusions[i].end;
      if i > current {
        assert exclusions[current].end <= exclusions[i].start;
      }
    }
  }

  lemma ScanStep(bytes: seq<Byte>, exclusions: seq<Range>, at: nat)
    requires at < |bytes|
    ensures EscapeMarkers(bytes, exclusions, at)
         == (if Marked(bytes, exclusions, at) then [Range(at - 1, at)] else []) + EscapeMarkers(bytes, exclusions, at + 1)
    ensures Marked(bytes, exclusions, at) ==> at > 0
  {
  }

  /** From inside an exclusion the scan may jump to its end. */
  lemma SkipCurrent(bytes: seq<Byte>, exclusions: seq<Range>, current: nat, cursor: nat)
    requires Normalized(exclusions, |bytes|) && current < |exclusions|
    requires exclusions[current].start <= cursor < exclusions[current].end
    ensures exclusions[current].end <= |bytes|
    ensures EscapeMarkers(bytes, exclusions, cursor) == EscapeMarkers(bytes, exclusions, exclusions[current].end)
  {
    SkipExcluded(bytes, exclusions, cursor, exclusions[current].end);
  }

  /**
   The two-cursor scan of `collect_inline_marker_ranges`: over normalized
   exclusions it marks exactly what the plain scan marks.
   */
  method CollectEscapeMarkers(bytes: seq<Byte>, exclusions: seq<Range>) returns (ranges: seq<Range>)
    requires Normalized(exclusions, |bytes|)
    ensures ranges == EscapeMarkers(bytes, exclusions, 0)
  {
    hide EscapeMarkers, Normalized, Excluded, Escaped;
    ranges := [];
    var cursor, current := 0, 0;
    while cursor < |bytes|
      invariant cursor <= |bytes| && current <= |exclusions|
      invariant forall i :: 0 <= i < current ==> exclusions[i].end <= cursor
      invariant EscapeMarkers(bytes, exclusions, 0) == ranges + EscapeMarkers(bytes, exclusions, cursor)
    {
      while current < |exclusions| && exclusions[current].end <= cursor
        invariant current <= |exclusions| && forall i :: 0 <= i < current ==> exclusions[i].end <= cursor
      {
        current := current + 1;
      }
      OnlyCurrentExcludes(exclusions, |bytes|, current, cursor);
      if current < |exclusions| && exclusions[current].start <= cursor {
        SkipCurrent(bytes, exclusions, current, cursor);
        cursor := exclusions[current].end;
      } else {
        ScanStep(bytes, exclusions, cursor);
        ghost var rest := EscapeMarkers(bytes, exclusions, cursor + 1);
        var escaped := IsEscapedAt(bytes, cursor);
        if IsPunctuation(bytes[cursor]) && escaped {
          assert ranges + ([Range(cursor - 1, cursor)] + rest) == ranges + [Range(cursor - 1, cursor)] + rest;
          ranges := ranges + [Range(cursor - 1, cursor)];
        } else {
          assert [] + rest == rest;
        }
        cursor := cursor + 1;
      }
    }
    NothingLeftToScan(bytes, exclusions);
  }

  lemma NothingLeftToScan(bytes: seq<Byte>, exclusions: seq<Range>)
    ensures EscapeMarkers(bytes, exclusions, |bytes|) == []
  {
  }

  /** The plain scan marks exactly the escaped punctuation outside every exclusion, each by its backslash. */
  lemma {:induction false} MarkersAreExact(bytes: seq<Byte>, exclusions: seq<Range>, from: nat, at: nat)
    requires from <= |bytes| && 0 < at < |bytes|
    ensures Range(at - 1, at) in EscapeMarkers(bytes, exclusions, from) <==> from <= at && Marked(bytes, exclusions, at)
    decreases |bytes| - from
  {
    if from < |bytes| {
      MarkersAreExact(bytes, exclusions, from + 1, at);
    }
  }

  lemma NormalizedCons(r: Range, rest: seq<Range>, len: nat)
    requires r.start < r.end <= len && Normalized(rest, len) && forall x :: x in rest ==> r.end <= x.start
    ensures Normalized([r] + rest, len)
  {
  }

  lemma {:induction false} MarkersAreNormalized(bytes: seq<Byte>, exclusions: seq<Range>, from: nat)
    requires from <= |bytes|
    ensures Normalized(EscapeMarkers(bytes, exclusions, from), |bytes|)
    ensures forall r :: r in EscapeMarkers(bytes, exclusions, from) ==> from <= r.end && r.end == r.start + 1
    decreases |bytes| - from
  {
    hide Normalized, Excluded, Escaped;
    if from < |bytes| {
      MarkersAreNormalized(bytes, exclusions, from + 1);
      ScanStep(bytes, exclusions, from);
      if Marked(bytes, exclusions, from) {
        NormalizedCons(Range(from - 1, from), EscapeMarkers(bytes, exclusions, from + 1), |bytes|);
      } else {
        assert [] + EscapeMarkers(bytes, exclusions, from + 1) == EscapeMarkers(bytes, exclusions, from + 1);
      }
    } else {
      NoRangesAreNormalized(|bytes|);
    }
  }

  lemma NoRangesAreNormalized(len: nat)
    ensures Normalized([], len)
  {
  }
}
