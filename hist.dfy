/** The histogram accumulator and the region fill loop shared by the three
    processors. A histogram bin is addressed by histogram name, region and
    dataset; what a processor puts into it is kept as the multiset of filled
    values (binning is the histogram library's business). */
module Hist {
  import opened Common
  import opened Selection

  datatype HistKey = HistKey(hist: string, region: string, dataset: string)

  /** The accumulator: filled values per (histogram, region, dataset). A key
      that is absent holds nothing. */
  type Accumulator = map<HistKey, multiset<real>>

  /** Per event, the values that event contributes to a histogram: one for a
      per-event quantity, zero or more for a per-object one. */
  type Column = seq<seq<real>>

  /** accumulator.identity(): every histogram empty. */
  function Identity(): Accumulator
  {
    map[]
  }

  /** What the accumulator holds for a key. */
  function Contents(acc: Accumulator, key: HistKey): multiset<real>
  {
    if key in acc then acc[key] else multiset{}
  }

  /** A per-event quantity as a column: exactly one value per event. */
  function Scalar(values: seq<real>): (col: Column)
    ensures |col| == |values|
    ensures forall i :: 0 <= i < |values| ==> col[i] == [values[i]]
  {
    seq(|values|, i requires 0 <= i < |values| => [values[i]])
  }

  /** `column[mask].flatten()`: the values of the events the mask keeps, in event order. */
  function Selected(col: Column, mask: Mask): seq<real>
    requires |col| == |mask|
  {
    if |col| == 0 then [] else (if mask[0] then col[0] else []) + Selected(col[1..], mask[1..])
  }

  /** The number of events a mask keeps. */
  function TrueCount(mask: Mask): nat
  {
    if |mask| == 0 then 0 else (if mask[0] then 1 else 0) + TrueCount(mask[1..])
  }

  /** For a per-event quantity, one value is filled per passing event. */
  lemma {:induction false} SelectedScalarCount(values: seq<real>, mask: Mask)
    requires |values| == |mask|
    ensures |Selected(Scalar(values), mask)| == TrueCount(mask)
  {
    if |values| > 0 {
      assert Scalar(values)[1..] == Scalar(values[1..]);
      SelectedScalarCount(values[1..], mask[1..]);
    }
  }

  /** A value is filled exactly when some passing event contributes it. */
  lemma {:induction false} SelectedMembership(col: Column, mask: Mask, x: real)
    requires |col| == |mask|
    ensures x in Selected(col, mask) <==> exists i :: 0 <= i < |mask| && mask[i] && x in col[i]
  {
    if |col| > 0 {
      SelectedMembership(col[1..], mask[1..], x);
      if exists i :: 0 <= i < |mask| && mask[i] && x in col[i] {
        var i :| 0 <= i < |mask| && mask[i] && x in col[i];
        if i > 0 {
          assert mask[1..][i - 1] && x in col[1..][i - 1];
        }
      }
      if x in Selected(col, mask) && !(mask[0] && x in col[0]) {
        var i :| 0 <= i < |mask| - 1 && mask[1..][i] && x in col[1..][i];
        assert mask[i + 1] && x in col[i + 1];
      }
    }
  }

  /** For a per-event quantity, the filled values are exactly the values of
      the passing events. */
  lemma SelectedScalarMembership(values: seq<real>, mask: Mask, x: real)
    requires |values| == |mask|
    ensures x in Selected(Scalar(values), mask) <==> exists i :: 0 <= i < |mask| && mask[i] && values[i] == x
  {
    SelectedMembership(Scalar(values), mask, x);
    assert forall i :: 0 <= i < |mask| ==> (x in Scalar(values)[i] <==> values[i] == x);
  }

  /** A mask that implies another selects a sub-multiset of its values. */
  lemma {:induction false} SelectedMonotone(col: Column, fewer: Mask, more: Mask)
    requires |col| == |fewer| == |more|
    requires forall i :: 0 <= i < |col| && fewer[i] ==> more[i]
    ensures multiset(Selected(col, fewer)) <= multiset(Selected(col, more))
  {
    if |col| > 0 {
      SelectedMonotone(col[1..], fewer[1..], more[1..]);
    }
  }

  /** Filling with no passing event adds nothing. */
  lemma {:induction false} SelectedNothing(col: Column, mask: Mask)
    requires |col| == |mask|
    requires forall i :: 0 <= i < |mask| ==> !mask[i]
    ensures Selected(col, mask) == []
  {
    if |col| > 0 {
      SelectedNothing(col[1..], mask[1..]);
    }
  }

  /** `output[hist].fill(region=..., dataset=..., values)`: adds the values
      to one key and leaves every other key as it was. */
  function Fill(acc: Accumulator, key: HistKey, values: seq<real>): (acc': Accumulator)
    ensures Contents(acc', key) == Contents(acc, key) + multiset(values)
    ensures forall k :: k != key ==> Contents(acc', k) == Contents(acc, k)
    ensures acc'.Keys == acc.Keys + {key}
  {
    acc[key := Contents(acc, key) + multiset(values)]
  }

  /** Every region names only registered selections. */
  predicate CutsDefined(regions: map<string, seq<string>>, masks: map<string, Mask>)
  {
    forall r :: r in regions ==> Defined(masks, regions[r])
  }

  /** Every column has one entry per event. */
  predicate ColumnsAligned(columns: map<string, Column>, n: nat)
  {
    forall h :: h in columns ==> |columns[h]| == n
  }

  /** The keys the fill loop writes for one dataset. */
  function FillKeys(regionNames: set<string>, hists: set<string>, dataset: string): set<HistKey>
  {
    set r, h | r in regionNames && h in hists :: HistKey(h, r, dataset)
  }

  /** What the fill loop produces from the identity: for every region and
      every histogram, the values of the events that pass all of the region's cuts. */
  function Filled(regions: map<string, seq<string>>, masks: map<string, Mask>, n: nat,
                  dataset: string, columns: map<string, Column>): Accumulator
    requires CutsDefined(regions, masks) && ColumnsAligned(columns, n)
  {
    map k | k in FillKeys(regions.Keys, columns.Keys, dataset) && k.region in regions && k.hist in columns
      :: multiset(Selected(columns[k.hist], RegionMask(masks, regions[k.region], n)))
  }

  /** A histogram of a region of the filled dataset holds the values of the
      events passing the region's cuts; every other key holds nothing. */
  lemma FilledContents(regions: map<string, seq<string>>, masks: map<string, Mask>, n: nat,
                       dataset: string, columns: map<string, Column>, key: HistKey)
    requires CutsDefined(regions, masks) && ColumnsAligned(columns, n)
    ensures Contents(Filled(regions, masks, n, dataset, columns), key) ==
            if key.dataset == dataset && key.region in regions && key.hist in columns
            then multiset(Selected(columns[key.hist], RegionMask(masks, regions[key.region], n)))
            else multiset{}
  {
    if key.dataset == dataset && key.region in regions && key.hist in columns {
      assert key == HistKey(key.hist, key.region, dataset);
      assert key in FillKeys(regions.Keys, columns.Keys, dataset);
    }
  }

  /** When every cut of region `wide` is also a cut of region `narrow`, each
      histogram of `narrow` holds a sub-multiset of the same histogram of
      `wide`; in particular it holds no more entries. */
  lemma {:induction false} FilledNarrowerRegion(regions: map<string, seq<string>>, masks: map<string, Mask>, n: nat,
                                                dataset: string, columns: map<string, Column>,
                                                narrow: string, wide: string, hist: string)
    requires CutsDefined(regions, masks) && ColumnsAligned(columns, n) && Aligned(masks, n)
    requires narrow in regions && wide in regions && hist in columns
    requires forall c :: c in regions[wide] ==> c in regions[narrow]
    ensures Contents(Filled(regions, masks, n, dataset, columns), HistKey(hist, narrow, dataset)) <=
            Contents(Filled(regions, masks, n, dataset, columns), HistKey(hist, wide, dataset))
    ensures |Contents(Filled(regions, masks, n, dataset, columns), HistKey(hist, narrow, dataset))| <=
            |Contents(Filled(regions, masks, n, dataset, columns), HistKey(hist, wide, dataset))|
  {
    var acc := Filled(regions, masks, n, dataset, columns);
    var narrowMask := RegionMask(masks, regions[narrow], n);
    var wideMask := RegionMask(masks, regions[wide], n);
    FilledContents(regions, masks, n, dataset, columns, HistKey(hist, narrow, dataset));
    FilledContents(regions, masks, n, dataset, columns, HistKey(hist, wide, dataset));
    MoreCutsFewerEvents(masks, regions[wide], regions[narrow], n);
    SelectedMonotone(columns[hist], narrowMask, wideMask);
    SubMultisetSize(multiset(Selected(columns[hist], narrowMask)), multiset(Selected(columns[hist], wideMask)));
  }

  lemma SubMultisetSize(a: multiset<real>, b: multiset<real>)
    requires a <= b
    ensures |a| <= |b|
  {
    assert b == a + (b - a);
  }

  /** A value is in a region's histogram exactly when some event passing
      the region's cuts contributes it. */
  lemma FilledMembership(regions: map<string, seq<string>>, masks: map<string, Mask>, n: nat,
                         dataset: string, columns: map<string, Column>, region: string, hist: string, x: real)
    requires CutsDefined(regions, masks) && ColumnsAligned(columns, n)
    requires region in regions && hist in columns
    ensures x in Contents(Filled(regions, masks, n, dataset, columns), HistKey(hist, region, dataset)) <==>
            exists i :: 0 <= i < n && RegionMask(masks, regions[region], n)[i] && x in columns[hist][i]
  {
    FilledContents(regions, masks, n, dataset, columns, HistKey(hist, region, dataset));
    SelectedMembership(columns[hist], RegionMask(masks, regions[region], n), x);
  }

  /** A scalar histogram of a region receives one entry per event passing
      the region's cuts. */
  lemma FilledScalarCount(regions: map<string, seq<string>>, masks: map<string, Mask>, n: nat,
                          dataset: string, columns: map<string, Column>, region: string, hist: string, values: seq<real>)
    requires CutsDefined(regions, masks) && ColumnsAligned(columns, n)
    requires region in regions && hist in columns && columns[hist] == Scalar(values)
    ensures |Contents(Filled(regions, masks, n, dataset, columns), HistKey(hist, region, dataset))| ==
            TrueCount(RegionMask(masks, regions[region], n))
  {
    FilledContents(regions, masks, n, dataset, columns, HistKey(hist, region, dataset));
    SelectedScalarCount(values, RegionMask(masks, regions[region], n));
  }

  /** An accumulator holding, for every region and histogram of the
      dataset and for no other key, the values passing the region's cuts is
      the one Filled describes. */
  lemma FilledExactly(out: Accumulator, regions: map<string, seq<string>>, masks: map<string, Mask>, n: nat,
                      dataset: string, columns: map<string, Column>)
    requires CutsDefined(regions, masks) && ColumnsAligned(columns, n)
    requires forall k: HistKey :: k in out <==> k.dataset == dataset && k.region in regions && k.hist in columns
    requires forall k: HistKey :: k in out ==>
               out[k] == multiset(Selected(columns[k.hist], RegionMask(masks, regions[k.region], n)))
    ensures out == Filled(regions, masks, n, dataset, columns)
  {
    var expected := Filled(regions, masks, n, dataset, columns);
    forall k | k in out
      ensures k in expected
    {
      assert k == HistKey(k.hist, k.region, dataset);
    }
    assert out == expected;
  }

  /** Whether the fill loop has written key k once the regions outside
      `todo` are done and, of region `current`, the histograms in `doneHists`. */
  ghost predicate Due(k: HistKey, regions: map<string, seq<string>>, columns: map<string, Column>, dataset: string,
                      todo: set<string>, current: string, doneHists: set<string>)
  {
    k.dataset == dataset && k.region in regions && k.hist in columns &&
    (k.region !in todo || (k.region == current && k.hist in doneHists))
  }

  /** The region fill loop: for every region, AND its cuts and fill every
      histogram with the values of the passing events. A region naming an
      unregistered selection fails the batch. */
  method FillRegions(regions: map<string, seq<string>>, sel: Registry, dataset: string, columns: map<string, Column>)
    returns (r: Result<Accumulator>)
    requires sel.Valid() && ColumnsAligned(columns, sel.size)
    ensures r.Err? <==> !CutsDefined(regions, sel.masks)
    ensures r.Err? ==> r.failure.UndefinedSelection? &&
                       exists region :: region in regions && FirstUndefined(sel.masks, regions[region], r.failure.name)
    ensures r.Ok? ==> r.value == Filled(regions, sel.masks, sel.size, dataset, columns)
  {
    var out := Identity();
    var todo := regions.Keys;
    while todo != {}
      invariant todo <= regions.Keys
      invariant forall region :: region in regions && region !in todo ==> Defined(sel.masks, regions[region])
      invariant forall k: HistKey :: k in out <==> Due(k, regions, columns, dataset, todo, "", {})
      invariant forall k: HistKey :: k in out ==>
                  out[k] == multiset(Selected(columns[k.hist], RegionMask(sel.masks, regions[k.region], sel.size)))
      decreases todo
    {
      var region :| region in todo;
      var m := sel.All(regions[region]);
      if m.Err? {
        return Err(m.failure);
      }
      var hists := columns.Keys;
      while hists != {}
        invariant hists <= columns.Keys
        invariant forall k: HistKey :: k in out <==> Due(k, regions, columns, dataset, todo, region, columns.Keys - hists)
        invariant forall k: HistKey :: k in out ==>
                    out[k] == multiset(Selected(columns[k.hist], RegionMask(sel.masks, regions[k.region], sel.size)))
        decreases hists
      {
        var h :| h in hists;
        out := Fill(out, HistKey(h, region, dataset), Selected(columns[h], m.value));
        hists := hists - {h};
      }
      todo := todo - {region};
    }
    FilledExactly(out, regions, sel.masks, sel.size, dataset, columns);
    return Ok(out);
  }
}
