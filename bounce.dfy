/**
 * Bounce-back flags: for every `done` row, whether the same obligation is reopened within
 * the horizon. The reference definition walks the ledger forward from the completion; the
 * method does what the harness does, over per-item index lists.
 */
module Bounce {
  import opened Ledger

  /**
   * The look-ahead for one completion of `item`: walk the rows from position `k` on, skipping
   * other items; the first row of `item` stamped after `end` stops the walk without a bounce,
   * and the first reopen of `item` before that is a bounce.
   */
  function ScanFrom(rs: seq<Record>, item: ItemId, k: nat, end: int): bool
    requires k <= |rs|
    decreases |rs| - k
  {
    if k == |rs| then false
    else if rs[k].item != item then ScanFrom(rs, item, k + 1, end)
    else if rs[k].ts > end then false
    else if rs[k].kind == Reopen then true
    else ScanFrom(rs, item, k + 1, end)
  }

  /** The flag of row `g`: absent for rows that are not completions, the look-ahead otherwise. */
  function BounceFlag(rs: seq<Record>, g: nat, horizon: int): Option<bool>
    requires g < |rs|
  {
    if rs[g].kind != Done then None
    else Some(ScanFrom(rs, rs[g].item, g + 1, rs[g].ts + horizon))
  }

  function BounceFlags(rs: seq<Record>, horizon: int): seq<Option<bool>>
  {
    seq(|rs|, g requires 0 <= g < |rs| => BounceFlag(rs, g, horizon))
  }

  /** `positions` lists, in increasing order, exactly the rows of `item` below `hi`. */
  ghost predicate Timeline(rs: seq<Record>, positions: seq<nat>, item: ItemId, hi: nat)
  {
    && hi <= |rs|
    && (forall a, b :: 0 <= a < b < |positions| ==> positions[a] < positions[b])
    && (forall m :: 0 <= m < |positions| ==> positions[m] < hi && rs[positions[m]].item == item)
    && (forall p :: 0 <= p < hi && rs[p].item == item ==> p in positions)
  }

  /** Rows of other items do not change the look-ahead. */
  lemma {:induction false} SkipOthers(rs: seq<Record>, item: ItemId, p: nat, q: nat, end: int)
    requires p <= q <= |rs|
    requires forall i :: p <= i < q ==> rs[i].item != item
    ensures ScanFrom(rs, item, p, end) == ScanFrom(rs, item, q, end)
    decreases q - p
  {
    if p < q {
      SkipOthers(rs, item, p + 1, q, end);
    }
  }

  /** Between two consecutive entries of a timeline (or after its last one) no row of the item lies. */
  lemma TimelineGap(rs: seq<Record>, positions: seq<nat>, item: ItemId, k: nat)
    requires Timeline(rs, positions, item, |rs|) && k < |positions|
    ensures forall i :: positions[k] < i < (if k + 1 < |positions| then positions[k + 1] else |rs|)
                        ==> rs[i].item != item
  {
  }

  /** Appending the next row keeps a timeline exact: it grows by that row when the row is of its item. */
  lemma TimelineExtend(rs: seq<Record>, positions: seq<nat>, item: ItemId, hi: nat)
    requires Timeline(rs, positions, item, hi) && hi < |rs|
    ensures rs[hi].item == item ==> Timeline(rs, positions + [hi], item, hi + 1)
    ensures rs[hi].item != item ==> Timeline(rs, positions, item, hi + 1)
  {
  }

  /**
   * `itemIndices` holds, for every item seen among the first `hi` rows, the exact timeline of that
   * item, and has no key for an item not seen.
   */
  ghost predicate Indexed(rs: seq<Record>, itemIndices: map<ItemId, seq<nat>>, hi: nat)
  {
    && hi <= |rs|
    && (forall u :: u in itemIndices ==> |itemIndices[u]| > 0 && Timeline(rs, itemIndices[u], u, hi))
    && (forall p :: 0 <= p < hi ==> rs[p].item in itemIndices)
  }

  /** Recording row `hi` under its item keeps every timeline of the index exact and non-empty. */
  lemma TimelinesExtend(rs: seq<Record>, itemIndices: map<ItemId, seq<nat>>, hi: nat)
    requires Indexed(rs, itemIndices, hi) && hi < |rs|
    ensures var u := rs[hi].item;
            var next := itemIndices[u := (if u in itemIndices then itemIndices[u] else []) + [hi]];
            forall v :: v in next ==> |next[v]| > 0 && Timeline(rs, next[v], v, hi + 1)
  {
    var u := rs[hi].item;
    var prior := if u in itemIndices then itemIndices[u] else [];
    assert Timeline(rs, prior, u, hi);
    TimelineExtend(rs, prior, u, hi);
    var next := itemIndices[u := prior + [hi]];
    forall v | v in next
      ensures |next[v]| > 0 && Timeline(rs, next[v], v, hi + 1)
    {
      if v != u {
        TimelineExtend(rs, itemIndices[v], v, hi);
      }
    }
  }

  /** Recording row `hi` under its item gives every one of the first `hi + 1` rows a key. */
  lemma CoverExtend(rs: seq<Record>, itemIndices: map<ItemId, seq<nat>>, hi: nat)
    requires Indexed(rs, itemIndices, hi) && hi < |rs|
    ensures var u := rs[hi].item;
            var next := itemIndices[u := (if u in itemIndices then itemIndices[u] else []) + [hi]];
            forall p :: 0 <= p < hi + 1 ==> rs[p].item in next
  {
  }

  lemma {:induction false} IndexedExtend(rs: seq<Record>, itemIndices: map<ItemId, seq<nat>>, hi: nat)
    requires Indexed(rs, itemIndices, hi) && hi < |rs|
    ensures var u := rs[hi].item;
            var prior := if u in itemIndices then itemIndices[u] else [];
            Indexed(rs, itemIndices[u := prior + [hi]], hi + 1)
  {
    TimelinesExtend(rs, itemIndices, hi);
    CoverExtend(rs, itemIndices, hi);
  }

  /** The per-item index: every item of the ledger mapped to the increasing list of its row positions. */
  method IndexByItem(records: seq<Record>) returns (itemIndices: map<ItemId, seq<nat>>)
    ensures Indexed(records, itemIndices, |records|)
  {
    itemIndices := map[];
    for idx := 0 to |records|
      invariant Indexed(records, itemIndices, idx)
    {
      var u := records[idx].item;
      var prior := if u in itemIndices then itemIndices[u] else [];
      IndexedExtend(records, itemIndices, idx);
      itemIndices := itemIndices[u := prior + [idx]];
    }
  }

  /**
   * The look-ahead for the completion at entry `j` of the timeline `indices` of `item`: scan the
   * later entries, stop at the first one past `targetEnd`, report a bounce at the first reopen.
   */
  method LookAhead(records: seq<Record>, indices: seq<nat>, item: ItemId, j: nat, targetEnd: int)
    returns (bounce: bool)
    requires Timeline(records, indices, item, |records|) && j < |indices|
    ensures bounce == ScanFrom(records, item, indices[j] + 1, targetEnd)
  {
    var n := |records|;
    bounce := false;
    TimelineGap(records, indices, item, j);
    SkipOthers(records, item, indices[j] + 1, if j + 1 < |indices| then indices[j + 1] else n, targetEnd);
    var k := j + 1;
    while k < |indices|
      invariant j + 1 <= k <= |indices|
      invariant !bounce
      invariant ScanFrom(records, item, indices[j] + 1, targetEnd)
                == ScanFrom(records, item, if k < |indices| then indices[k] else n, targetEnd)
    {
      var later := records[indices[k]];
      if later.ts > targetEnd {
        break;
      }
      if later.kind == Reopen {
        bounce := true;
        break;
      }
      TimelineGap(records, indices, item, k);
      SkipOthers(records, item, indices[k] + 1, if k + 1 < |indices| then indices[k + 1] else n, targetEnd);
      k := k + 1;
    }
  }

  /** Fill in the flags of every completion of one item, leaving all other entries as they were. */
  method FlagItem(records: seq<Record>, horizon: int, indices: seq<nat>, item: ItemId, bounceFlags: array<Option<bool>>)
    requires Timeline(records, indices, item, |records|) && bounceFlags.Length == |records|
    modifies bounceFlags
    ensures forall g :: 0 <= g < |records| ==>
              bounceFlags[g] == if records[g].item == item && records[g].kind == Done
                                then BounceFlag(records, g, horizon) else old(bounceFlags[g])
  {
    for j := 0 to |indices|
      invariant forall m :: 0 <= m < j && records[indices[m]].kind == Done ==>
                  bounceFlags[indices[m]] == BounceFlag(records, indices[m], horizon)
      invariant forall g :: 0 <= g < |records| && !(g in indices[..j] && records[g].kind == Done) ==>
                  bounceFlags[g] == old(bounceFlags[g])
    {
      var g := indices[j];
      if records[g].kind != Done {
        continue;
      }
      var bounce := LookAhead(records, indices, item, j, records[g].ts + horizon);
      bounceFlags[g] := Some(bounce);
    }
  }

  /** Flags for all rows, computed as the harness does: index the rows by item, then look ahead per item. */
  method PrecomputeBounceFlags(records: seq<Record>, horizon: int) returns (flags: seq<Option<bool>>)
    ensures |flags| == |records|
    ensures forall g :: 0 <= g < |records| ==> (flags[g].None? <==> records[g].kind != Done)
    ensures flags == BounceFlags(records, horizon)
  {
    var n := |records|;
    var itemIndices := IndexByItem(records);
    var bounceFlags := new Option<bool>[n](_ => None);
    var pending := itemIndices.Keys;
    while pending != {}
      invariant pending <= itemIndices.Keys
      invariant forall g :: 0 <= g < n ==>
                  bounceFlags[g] == if records[g].item in pending then None else BounceFlag(records, g, horizon)
      decreases pending
    {
      var u :| u in pending;
      FlagItem(records, horizon, itemIndices[u], u, bounceFlags);
      pending := pending - {u};
    }
    flags := bounceFlags[..];
  }

  /** On a sorted ledger the look-ahead finds a bounce exactly when a reopen of the item lies ahead within `end`. */
  lemma {:induction false} ScanFromSorted(rs: seq<Record>, item: ItemId, k: nat, end: int)
    requires Sorted(rs) && k <= |rs|
    ensures ScanFrom(rs, item, k, end) <==>
            exists p :: k <= p < |rs| && rs[p].item == item && rs[p].kind == Reopen && rs[p].ts <= end
    decreases |rs| - k
  {
    if k < |rs| {
      ScanFromSorted(rs, item, k + 1, end);
      if rs[k].item == item && rs[k].ts > end {
        assert forall p :: k <= p < |rs| ==> rs[p].ts > end;
      }
    }
  }

  /**
   * On a sorted ledger a completion at row `g` bounces exactly when some LATER row of the same
   * item is a reopen stamped no later than the completion plus the horizon. Earlier rows and
   * other items' rows play no part.
   */
  lemma BounceIffLaterReopen(rs: seq<Record>, g: nat, horizon: int)
    requires Sorted(rs) && g < |rs| && rs[g].kind == Done
    ensures BounceFlag(rs, g, horizon) == Some(true) <==>
            exists k :: g < k < |rs| && rs[k].item == rs[g].item && rs[k].kind == Reopen
                        && rs[k].ts <= rs[g].ts + horizon
  {
    ScanFromSorted(rs, rs[g].item, g + 1, rs[g].ts + horizon);
  }

  /** Extending the end of the look-ahead can only find more bounces (no sortedness needed). */
  lemma {:induction false} ScanFromMonotone(rs: seq<Record>, item: ItemId, k: nat, end1: int, end2: int)
    requires k <= |rs| && end1 <= end2
    requires ScanFrom(rs, item, k, end1)
    ensures ScanFrom(rs, item, k, end2)
    decreases |rs| - k
  {
    if k < |rs| && !(rs[k].item == item && rs[k].kind == Reopen) {
      ScanFromMonotone(rs, item, k + 1, end1, end2);
    }
  }

  /** Without reopen rows the look-ahead never finds a bounce. */
  lemma {:induction false} ScanFromNoReopen(rs: seq<Record>, item: ItemId, k: nat, end: int)
    requires k <= |rs|
    requires forall i :: 0 <= i < |rs| ==> rs[i].kind != Reopen
    ensures !ScanFrom(rs, item, k, end)
    decreases |rs| - k
  {
    if k < |rs| {
      ScanFromNoReopen(rs, item, k + 1, end);
    }
  }

  /** Horizon monotonicity: a bounce at a horizon stays a bounce at any larger horizon. */
  lemma HorizonMonotone(rs: seq<Record>, g: nat, h1: int, h2: int)
    requires g < |rs| && h1 <= h2
    requires BounceFlag(rs, g, h1) == Some(true)
    ensures BounceFlag(rs, g, h2) == Some(true)
  {
    ScanFromMonotone(rs, rs[g].item, g + 1, rs[g].ts + h1, rs[g].ts + h2);
  }
}
