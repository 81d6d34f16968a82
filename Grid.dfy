/** The results grid: an ordered list of items, each an id and an optional
    image source, where an item without a source is a placeholder. The
    functions here are the list updates the app applies when a generation
    starts, succeeds or fails; the lemmas say which items survive, in what
    order and with what content. A batch is the list of placeholder ids one
    generation created. */
module Grid {
  import opened Wrappers

  /** `GridItem`: `src` absent means the item is a placeholder. */
  datatype GridItem = GridItem(id: string, src: Option<string>)

  /** JavaScript truthiness of `item.src`: present and non-empty. */
  predicate HasSrc(item: GridItem) {
    Truthy(item.src)
  }

  /** The placeholders a generation prepends: one item without a source per id, in order. */
  function Placeholders(ids: seq<string>): (r: seq<GridItem>)
    ensures |r| == |ids|
    ensures forall i :: 0 <= i < |r| ==> r[i] == GridItem(ids[i], None)
  {
    if ids == [] then [] else [GridItem(ids[0], None)] + Placeholders(ids[1..])
  }

  /** The items whose id is in the batch, in list order. */
  function BatchItems(items: seq<GridItem>, batch: seq<string>): (r: seq<GridItem>)
    ensures forall x :: x in r <==> x in items && x.id in batch
  {
    if items == [] then []
    else (if items[0].id in batch then [items[0]] else []) + BatchItems(items[1..], batch)
  }

  /** The items whose id is not in the batch, in list order: the failure
      path's `filter(item => !placeholderIDs.includes(item.id))`. */
  function WithoutBatch(items: seq<GridItem>, batch: seq<string>): (r: seq<GridItem>)
    ensures forall x :: x in r <==> x in items && x.id !in batch
  {
    if items == [] then []
    else (if items[0].id in batch then [] else [items[0]]) + WithoutBatch(items[1..], batch)
  }

  /** The pass of the success path's loop: walking the list in order, the
      k-th batch item met receives the k-th source while sources remain;
      everything else is left as it is. */
  function Fill(items: seq<GridItem>, batch: seq<string>, srcs: seq<string>): (r: seq<GridItem>)
    ensures |r| == |items|
  {
    if items == [] then []
    else if srcs != [] && items[0].id in batch then
      [items[0].(src := Some(srcs[0]))] + Fill(items[1..], batch, srcs[1..])
    else
      [items[0]] + Fill(items[1..], batch, srcs)
  }

  /** The success path's final filter: a batch item left without a source is dropped. */
  function DropUnfilled(items: seq<GridItem>, batch: seq<string>): (r: seq<GridItem>)
    ensures forall x :: x in r <==> x in items && (x.id in batch ==> HasSrc(x))
  {
    if items == [] then []
    else (if items[0].id in batch && !HasSrc(items[0]) then [] else [items[0]]) + DropUnfilled(items[1..], batch)
  }

  /** The grid after a successful generation returned `srcs`. No batch item
      without a source survives it. */
  function Reconciled(items: seq<GridItem>, batch: seq<string>, srcs: seq<string>): (r: seq<GridItem>)
    ensures forall x :: x in r && x.id in batch ==> HasSrc(x)
  {
    DropUnfilled(Fill(items, batch, srcs), batch)
  }

  /** Sources handed out in order to a list of items, while sources remain. */
  function Assign(xs: seq<GridItem>, srcs: seq<string>): (r: seq<GridItem>)
    ensures |r| == |xs|
    ensures forall j :: 0 <= j < |xs| ==> r[j] == if j < |srcs| then xs[j].(src := Some(srcs[j])) else xs[j]
  {
    if xs == [] then []
    else if srcs == [] then xs
    else [xs[0].(src := Some(srcs[0]))] + Assign(xs[1..], srcs[1..])
  }

  /** The first `min(|ids|, |srcs|)` ids paired with the sources, as filled items. */
  function Fulfilled(ids: seq<string>, srcs: seq<string>): (r: seq<GridItem>)
    ensures |r| == if |ids| <= |srcs| then |ids| else |srcs|
    ensures forall j :: 0 <= j < |r| ==> r[j] == GridItem(ids[j], Some(srcs[j]))
  {
    if ids == [] || srcs == [] then []
    else [GridItem(ids[0], Some(srcs[0]))] + Fulfilled(ids[1..], srcs[1..])
  }

  predicate AllTruthy(srcs: seq<string>) {
    forall j :: 0 <= j < |srcs| ==> srcs[j] != ""
  }

  predicate Disjoint(items: seq<GridItem>, batch: seq<string>) {
    forall x :: x in items ==> x.id !in batch
  }

  // ---------------------------------------------------------------------
  // The success pass
  // ---------------------------------------------------------------------

  /** With no sources left the pass changes nothing. */
  lemma {:induction false} FillWithoutSources(items: seq<GridItem>, batch: seq<string>)
    ensures Fill(items, batch, []) == items
  {
    if items != [] {
      FillWithoutSources(items[1..], batch);
    }
  }

  /** A list without batch items is left as it is. */
  lemma {:induction false} FillOutsideBatch(items: seq<GridItem>, batch: seq<string>, srcs: seq<string>)
    requires Disjoint(items, batch)
    ensures Fill(items, batch, srcs) == items
  {
    if items != [] {
      assert items[0] in items;
      FillOutsideBatch(items[1..], batch, srcs);
    }
  }

  /** Position by position, the pass leaves items outside the batch as they
      were, and an item it changes receives one of the sources. */
  lemma {:induction false} FillPointwise(items: seq<GridItem>, batch: seq<string>, srcs: seq<string>)
    ensures var r := Fill(items, batch, srcs);
      && (forall i :: 0 <= i < |items| ==> r[i].id == items[i].id)
      && (forall i :: 0 <= i < |items| && items[i].id !in batch ==> r[i] == items[i])
      && (forall i :: 0 <= i < |items| && r[i] != items[i] ==> r[i].src.Some? && r[i].src.value in srcs)
  {
    if items != [] {
      var rest := if srcs != [] && items[0].id in batch then srcs[1..] else srcs;
      FillPointwise(items[1..], batch, rest);
      var r := Fill(items, batch, srcs);
      assert r[1..] == Fill(items[1..], batch, rest);
      assert forall y :: y in rest ==> y in srcs;
    }
  }

  /** The pass leaves the items outside the batch as they were, in the same order. */
  lemma {:induction false} FillKeepsOthers(items: seq<GridItem>, batch: seq<string>, srcs: seq<string>)
    ensures WithoutBatch(Fill(items, batch, srcs), batch) == WithoutBatch(items, batch)
  {
    if items != [] {
      var r := Fill(items, batch, srcs);
      var rest := if srcs != [] && items[0].id in batch then srcs[1..] else srcs;
      assert r[1..] == Fill(items[1..], batch, rest);
      FillKeepsOthers(items[1..], batch, rest);
    }
  }

  /** The pass hands the sources to the batch items in list order: the j-th
      batch item receives the j-th source when there is one, and keeps its
      content otherwise. */
  lemma {:induction false} FillBatch(items: seq<GridItem>, batch: seq<string>, srcs: seq<string>)
    ensures BatchItems(Fill(items, batch, srcs), batch) == Assign(BatchItems(items, batch), srcs)
  {
    if items == [] {
    } else if srcs == [] {
      FillWithoutSources(items, batch);
    } else {
      var r := Fill(items, batch, srcs);
      var rest := if items[0].id in batch then srcs[1..] else srcs;
      assert r[1..] == Fill(items[1..], batch, rest);
      FillBatch(items[1..], batch, rest);
    }
  }

  // ---------------------------------------------------------------------
  // The final filter
  // ---------------------------------------------------------------------

  /** The final filter leaves the items outside the batch as they were, in the same order. */
  lemma {:induction false} DropUnfilledKeepsOthers(items: seq<GridItem>, batch: seq<string>)
    ensures WithoutBatch(DropUnfilled(items, batch), batch) == WithoutBatch(items, batch)
  {
    if items != [] {
      var r := DropUnfilled(items, batch);
      if items[0].id in batch && !HasSrc(items[0]) {
        assert r == DropUnfilled(items[1..], batch);
      } else {
        assert r[1..] == DropUnfilled(items[1..], batch);
      }
      DropUnfilledKeepsOthers(items[1..], batch);
    }
  }

  /** A list without batch items passes the final filter unchanged. */
  lemma {:induction false} DropUnfilledOutsideBatch(items: seq<GridItem>, batch: seq<string>)
    requires Disjoint(items, batch)
    ensures DropUnfilled(items, batch) == items
  {
    if items != [] {
      assert items[0] in items;
      DropUnfilledOutsideBatch(items[1..], batch);
    }
  }

  /** Placeholders of the batch in front of such a list are all dropped. */
  lemma {:induction false} DropUnfilledPlaceholders(ids: seq<string>, batch: seq<string>, prev: seq<GridItem>)
    requires forall i :: 0 <= i < |ids| ==> ids[i] in batch
    requires Disjoint(prev, batch)
    ensures DropUnfilled(Placeholders(ids) + prev, batch) == prev
  {
    if ids == [] {
      assert Placeholders(ids) + prev == prev;
      DropUnfilledOutsideBatch(prev, batch);
    } else {
      var items := Placeholders(ids) + prev;
      assert items[0] == GridItem(ids[0], None);
      assert items[1..] == Placeholders(ids[1..]) + prev;
      DropUnfilledPlaceholders(ids[1..], batch, prev);
    }
  }

  // ---------------------------------------------------------------------
  // The success and failure paths as a whole
  // ---------------------------------------------------------------------

  /** On success the items outside the batch are kept, unchanged and in their order. */
  lemma ReconciledKeepsOthers(items: seq<GridItem>, batch: seq<string>, srcs: seq<string>)
    ensures WithoutBatch(Reconciled(items, batch, srcs), batch) == WithoutBatch(items, batch)
  {
    DropUnfilledKeepsOthers(Fill(items, batch, srcs), batch);
    FillKeepsOthers(items, batch, srcs);
  }

  /** The items that carry a (truthy) source, in order. */
  function FilledOnly(xs: seq<GridItem>): seq<GridItem>
  {
    if xs == [] then [] else (if HasSrc(xs[0]) then [xs[0]] else []) + FilledOnly(xs[1..])
  }

  /** Of the batch items, the final filter keeps exactly those with a source, in order. */
  lemma {:induction false} DropUnfilledBatch(items: seq<GridItem>, batch: seq<string>)
    ensures BatchItems(DropUnfilled(items, batch), batch) == FilledOnly(BatchItems(items, batch))
  {
    if items != [] {
      var x, tail := items[0], items[1..];
      var rt := DropUnfilled(tail, batch);
      var bt := BatchItems(tail, batch);
      DropUnfilledBatch(tail, batch);
      var xb := [x] + bt;
      assert xb[0] == x && xb[1..] == bt;
      if x.id in batch && !HasSrc(x) {
        assert DropUnfilled(items, batch) == rt;
        assert BatchItems(items, batch) == xb;
        assert FilledOnly(xb) == FilledOnly(bt);
      } else {
        var r := [x] + rt;
        assert DropUnfilled(items, batch) == r;
        assert r[0] == x && r[1..] == rt;
        if x.id in batch {
          assert BatchItems(r, batch) == [x] + BatchItems(rt, batch);
          assert BatchItems(items, batch) == xb;
          assert FilledOnly(xb) == [x] + FilledOnly(bt);
        } else {
          assert BatchItems(r, batch) == BatchItems(rt, batch);
          assert BatchItems(items, batch) == bt;
        }
      }
    }
  }

  /** Placeholders handed non-empty sources: those that got one are the first
      min(N, k), and only they pass the filter. */
  lemma {:induction false} FilledOnlyAssign(xs: seq<GridItem>, srcs: seq<string>)
    requires forall j :: 0 <= j < |xs| ==> !HasSrc(xs[j])
    requires AllTruthy(srcs)
    ensures FilledOnly(Assign(xs, srcs)) == Assign(xs, srcs)[..if |xs| <= |srcs| then |xs| else |srcs|]
  {
    if xs == [] {
    } else if srcs == [] {
      FilledOnlyNone(xs);
    } else {
      var a := Assign(xs, srcs);
      var m := if |xs| <= |srcs| then |xs| else |srcs|;
      assert a[0] == xs[0].(src := Some(srcs[0]));
      assert HasSrc(a[0]);
      assert a[1..] == Assign(xs[1..], srcs[1..]);
      FilledOnlyAssign(xs[1..], srcs[1..]);
      assert a[..m] == [a[0]] + a[1..][..m - 1];
    }
  }

  lemma {:induction false} FilledOnlyNone(xs: seq<GridItem>)
    requires forall j :: 0 <= j < |xs| ==> !HasSrc(xs[j])
    ensures FilledOnly(xs) == []
  {
    if xs != [] {
      FilledOnlyNone(xs[1..]);
    }
  }

  /** On success, whatever the grid holds: when the batch items are all
      placeholders and every source is non-empty, exactly min(N, k) batch
      items remain (N batch items, k sources), in their order, the j-th
      carrying the j-th source. */
  lemma ReconciledBatch(items: seq<GridItem>, batch: seq<string>, srcs: seq<string>)
    requires forall x :: x in items && x.id in batch ==> x.src.None?
    requires AllTruthy(srcs)
    ensures var before := BatchItems(items, batch);
      var after := BatchItems(Reconciled(items, batch, srcs), batch);
      && |after| == (if |before| <= |srcs| then |before| else |srcs|)
      && forall j :: 0 <= j < |after| ==> after[j] == GridItem(before[j].id, Some(srcs[j]))
  {
    var before := BatchItems(items, batch);
    var m := if |before| <= |srcs| then |before| else |srcs|;
    FillBatch(items, batch, srcs);
    DropUnfilledBatch(Fill(items, batch, srcs), batch);
    forall j | 0 <= j < |before|
      ensures !HasSrc(before[j])
    {
      assert before[j] in items;
    }
    FilledOnlyAssign(before, srcs);
    var after := BatchItems(Reconciled(items, batch, srcs), batch);
    assert after == Assign(before, srcs)[..m];
    forall j | 0 <= j < |after|
      ensures after[j] == GridItem(before[j].id, Some(srcs[j]))
    {
      assert after[j] == Assign(before, srcs)[j];
    }
  }

  /** A successful generation right after its placeholders were prepended:
      the grid becomes the first min(N, k) placeholders, in order, each
      carrying the source of the same rank, followed by the earlier items
      exactly as they were. */
  lemma {:induction false} ReconciledFreshBatch(ids: seq<string>, batch: seq<string>, prev: seq<GridItem>, srcs: seq<string>)
    requires forall i :: 0 <= i < |ids| ==> ids[i] in batch
    requires Disjoint(prev, batch)
    requires AllTruthy(srcs)
    ensures Reconciled(Placeholders(ids) + prev, batch, srcs) == Fulfilled(ids, srcs) + prev
  {
    var items := Placeholders(ids) + prev;
    if ids == [] {
      assert items == prev;
      FillOutsideBatch(prev, batch, srcs);
      DropUnfilledOutsideBatch(prev, batch);
    } else if srcs == [] {
      FillWithoutSources(items, batch);
      DropUnfilledPlaceholders(ids, batch, prev);
    } else {
      assert items == [GridItem(ids[0], None)] + (Placeholders(ids[1..]) + prev);
      ReconciledCons(GridItem(ids[0], None), Placeholders(ids[1..]) + prev, batch, srcs);
      ReconciledFreshBatch(ids[1..], batch, prev, srcs[1..]);
      var head := GridItem(ids[0], Some(srcs[0]));
      var later := Fulfilled(ids[1..], srcs[1..]);
      assert Fulfilled(ids, srcs) == [head] + later;
      assert [head] + (later + prev) == [head] + later + prev;
    }
  }

  /** A batch item in front receives the first (non-empty) source and survives the filter. */
  lemma ReconciledCons(x: GridItem, rest: seq<GridItem>, batch: seq<string>, srcs: seq<string>)
    requires x.id in batch && srcs != [] && srcs[0] != ""
    ensures Reconciled([x] + rest, batch, srcs) == [x.(src := Some(srcs[0]))] + Reconciled(rest, batch, srcs[1..])
  {
    var items := [x] + rest;
    assert items[0] == x && items[1..] == rest;
    var filled := Fill(items, batch, srcs);
    var y := x.(src := Some(srcs[0]));
    assert filled == [y] + Fill(rest, batch, srcs[1..]);
    assert filled[0] == y && filled[1..] == Fill(rest, batch, srcs[1..]);
    assert HasSrc(y);
  }

  /** On failure every item of the batch goes and nothing else: right after
      its placeholders were prepended, the grid returns to what it was. */
  lemma {:induction false} WithoutFreshBatch(ids: seq<string>, prev: seq<GridItem>)
    requires Disjoint(prev, ids)
    ensures WithoutBatch(Placeholders(ids) + prev, ids) == prev
  {
    WithoutBatchPrefix(ids, ids, prev);
  }

  lemma {:induction false} WithoutBatchPrefix(ids: seq<string>, batch: seq<string>, prev: seq<GridItem>)
    requires forall i :: 0 <= i < |ids| ==> ids[i] in batch
    requires Disjoint(prev, batch)
    ensures WithoutBatch(Placeholders(ids) + prev, batch) == prev
  {
    if ids == [] {
      assert Placeholders(ids) + prev == prev;
      WithoutBatchOutside(prev, batch);
    } else {
      var items := Placeholders(ids) + prev;
      assert items[1..] == Placeholders(ids[1..]) + prev;
      WithoutBatchPrefix(ids[1..], batch, prev);
    }
  }

  lemma {:induction false} WithoutBatchOutside(items: seq<GridItem>, batch: seq<string>)
    requires Disjoint(items, batch)
    ensures WithoutBatch(items, batch) == items
  {
    if items != [] {
      assert items[0] in items;
      WithoutBatchOutside(items[1..], batch);
    }
  }

  /** One step of the pass over the suffix starting at `i`, with the sources from `g` on. */
  lemma FillStep(items: seq<GridItem>, batch: seq<string>, srcs: seq<string>, i: nat, g: nat)
    requires i < |items| && g < |srcs|
    ensures items[i].id in batch ==>
      Fill(items[i..], batch, srcs[g..]) == [items[i].(src := Some(srcs[g]))] + Fill(items[i + 1..], batch, srcs[g + 1..])
    ensures items[i].id !in batch ==>
      Fill(items[i..], batch, srcs[g..]) == [items[i]] + Fill(items[i + 1..], batch, srcs[g..])
  {
    assert items[i..][0] == items[i] && items[i..][1..] == items[i + 1..];
    assert srcs[g..][0] == srcs[g] && srcs[g..][1..] == srcs[g + 1..];
  }

  /** The loop invariant of `ReconcileSuccess` survives one iteration;
      `whole` stands for the full pass over the original list. */
  lemma FillLoopStep(cur: seq<GridItem>, batch: seq<string>, srcs: seq<string>, whole: seq<GridItem>,
                     items: seq<GridItem>, i: nat, g: nat)
    requires i < |items| == |cur| && g < |srcs|
    requires items[i..] == cur[i..]
    requires whole == items[..i] + Fill(cur[i..], batch, srcs[g..])
    ensures items[i].id in batch ==>
      var next := items[i := items[i].(src := Some(srcs[g]))];
      next[i + 1..] == cur[i + 1..] &&
      whole == next[..i + 1] + Fill(cur[i + 1..], batch, srcs[g + 1..])
    ensures items[i].id !in batch ==>
      items[i + 1..] == cur[i + 1..] &&
      whole == items[..i + 1] + Fill(cur[i + 1..], batch, srcs[g..])
  {
    FillStep(cur, batch, srcs, i, g);
    assert items[i] == cur[i];
    assert items[i + 1..] == cur[i + 1..];
    var next := items[i := items[i].(src := Some(srcs[g]))];
    assert next[..i] == items[..i];
    assert next[i + 1..] == items[i + 1..];
    assert next[..i + 1] == items[..i] + [next[i]];
    assert items[..i + 1] == items[..i] + [items[i]];
  }

  /** The success path's `setGridItems` updater: copies the list, walks it with
      an index and a count of the sources used, assigning sources to the
      batch items of the copy, then filters out the batch items left empty. */
  method ReconcileSuccess(currentItems: seq<GridItem>, placeholderIds: seq<string>, generatedSrcs: seq<string>)
    returns (result: seq<GridItem>)
    ensures result == Reconciled(currentItems, placeholderIds, generatedSrcs)
  {
    ghost var whole := Fill(currentItems, placeholderIds, generatedSrcs);
    var newItems := currentItems;
    var generatedIdx := 0;
    var i := 0;
    while i < |newItems| && generatedIdx < |generatedSrcs|
      invariant 0 <= i <= |newItems| == |currentItems|
      invariant 0 <= generatedIdx <= |generatedSrcs|
      invariant newItems[i..] == currentItems[i..]
      invariant whole == newItems[..i] + Fill(currentItems[i..], placeholderIds, generatedSrcs[generatedIdx..])
    {
      FillLoopStep(currentItems, placeholderIds, generatedSrcs, whole, newItems, i, generatedIdx);
      if newItems[i].id in placeholderIds {
        newItems := newItems[i := newItems[i].(src := Some(generatedSrcs[generatedIdx]))];
        generatedIdx := generatedIdx + 1;
      }
      i := i + 1;
    }
    assert newItems == whole by {
      if i < |newItems| {
        FillWithoutSources(currentItems[i..], placeholderIds);
      }
      assert newItems == newItems[..i] + newItems[i..];
    }
    result := DropUnfilled(newItems, placeholderIds);
  }
}
