/** The custom-NanoAOD trigger-efficiency processor
    (jmecofftea/custom_nano/customNanoProcessor.py): registers the lumi mask
    and four bits per trigger, then fills the leading-jet pt, HT and MET
    histograms of every numerator and denominator region. */
module CustomNano {
  import opened Common
  import opened Lumi
  import opened Selection
  import opened Hist
  import opened CustomNanoRegions

  /** The four branches an event carries for one trigger path. */
  datatype PathBits = PathBits(hltAccept: bool, hltPrescaled: bool, l1Accept: bool, l1PrescaledOrMasked: bool)

  /** One event of a custom NanoAOD batch; `paths` holds the branches
      `{trigger}_HLTPathAccept`, `{trigger}_HLTPathPrescaled`,
      `{trigger}_L1TSeedAccept` and `{trigger}_L1TSeedPrescaledOrMasked`. */
  datatype NanoEvent = NanoEvent(id: EventId, leadingJetPt: real, ht: real, met: real, paths: map<string, PathBits>)

  /** The selection each of a trigger's four registered masks reads. */
  datatype Flag = HltAccepted | HltNotPrescaled | L1NotPrescaled | L1Accepted

  /** The triggers of interest: single-jet, forward single-jet and HT paths. */
  const Triggers: seq<string> := [
    "HLT_PFJet60", "HLT_PFJet80", "HLT_PFJet140", "HLT_PFJet320", "HLT_PFJet500",
    "HLT_PFJetFwd60", "HLT_PFJetFwd80", "HLT_PFJetFwd140", "HLT_PFJetFwd320",
    "HLT_PFHT180", "HLT_PFHT350", "HLT_PFHT510", "HLT_PFHT780", "HLT_PFHT1050"
  ]

  /** The name suffix under which each flag is registered. */
  function Suffix(f: Flag): string
  {
    match f
    case HltAccepted => "_HLTPathAccept"
    case HltNotPrescaled => "_HLTPathNotPrescaled"
    case L1NotPrescaled => "_L1TSeedNotPrescaled"
    case L1Accepted => "_L1TSeedAccept"
  }

  /** Every event carries the branches of the trigger. */
  predicate HasPath(batch: seq<NanoEvent>, t: string)
  {
    forall i :: 0 <= i < |batch| ==> t in batch[i].paths
  }

  /** Every event carries the branches of every listed trigger. */
  predicate HasPaths(batch: seq<NanoEvent>, triggers: seq<string>)
  {
    forall t :: t in triggers ==> HasPath(batch, t)
  }

  lemma HasPathsPrefix(batch: seq<NanoEvent>, triggers: seq<string>, k: nat)
    requires HasPaths(batch, triggers) && k <= |triggers|
    ensures HasPaths(batch, triggers[..k])
  {
    assert forall t :: t in triggers[..k] ==> t in triggers;
  }

  function Ids(batch: seq<NanoEvent>): seq<EventId>
  {
    seq(|batch|, i requires 0 <= i < |batch| => batch[i].id)
  }

  function FlagOf(bits: PathBits, f: Flag): bool
  {
    match f
    case HltAccepted => bits.hltAccept
    case HltNotPrescaled => !bits.hltPrescaled
    case L1NotPrescaled => !bits.l1PrescaledOrMasked
    case L1Accepted => bits.l1Accept
  }

  /** The mask registered for one trigger and flag: the accept bits as they
      are, the prescale bits negated. */
  function FlagMask(batch: seq<NanoEvent>, t: string, f: Flag): (m: Mask)
    requires HasPath(batch, t)
    ensures |m| == |batch|
  {
    seq(|batch|, i requires 0 <= i < |batch| => FlagOf(batch[i].paths[t], f))
  }

  /** The masks registered for the triggers on top of `base`, trigger by trigger. */
  function TriggerSelections(base: map<string, Mask>, batch: seq<NanoEvent>, triggers: seq<string>): map<string, Mask>
    requires HasPaths(batch, triggers)
  {
    if triggers == [] then base
    else
      var t := triggers[|triggers| - 1];
      HasPathsPrefix(batch, triggers, |triggers| - 1);
      TriggerSelections(base, batch, triggers[..|triggers| - 1])
        [t + Suffix(HltAccepted) := FlagMask(batch, t, HltAccepted)]
        [t + Suffix(HltNotPrescaled) := FlagMask(batch, t, HltNotPrescaled)]
        [t + Suffix(L1NotPrescaled) := FlagMask(batch, t, L1NotPrescaled)]
        [t + Suffix(L1Accepted) := FlagMask(batch, t, L1Accepted)]
  }

  /** The names registered for a list of triggers. */
  function TriggerNames(triggers: seq<string>): set<string>
  {
    set t, f: Flag | t in triggers :: t + Suffix(f)
  }

  /** A registered trigger name determines its trigger and its flag. */
  lemma {:induction false} TriggerNameInjective(t1: string, f1: Flag, t2: string, f2: Flag)
    requires t1 + Suffix(f1) == t2 + Suffix(f2)
    ensures t1 == t2 && f1 == f2
  {
    var w := t1 + Suffix(f1);
    var s1, s2 := Suffix(f1), Suffix(f2);
    assert w[|w| - 1] == s1[|s1| - 1];
    assert w[|w| - 1] == s2[|s2| - 1];
    assert |s1| == |s2|;
    assert w[|t1| + 7] == s1[7];
    assert w[|t2| + 7] == s2[7];
    assert f1 == f2;
    assert t1 == w[..|t1|];
    assert t2 == w[..|t2|];
  }

  /** "lumi_mask" is too short to be a trigger's name. */
  lemma LumiMaskNotTriggerName(t: string, f: Flag)
    ensures "lumi_mask" != t + Suffix(f)
  {
    assert |Suffix(f)| >= 14;
  }

  /** The names registered for one trigger. */
  function OwnNames(t: string): set<string>
  {
    set f: Flag :: t + Suffix(f)
  }

  /** A trigger's names are its four flags' suffixes. */
  lemma TriggerOwnNames(t: string)
    ensures OwnNames(t) ==
            {t + Suffix(HltAccepted), t + Suffix(HltNotPrescaled), t + Suffix(L1NotPrescaled), t + Suffix(L1Accepted)}
  {
    forall n | n in OwnNames(t)
      ensures n in {t + Suffix(HltAccepted), t + Suffix(HltNotPrescaled), t + Suffix(L1NotPrescaled), t + Suffix(L1Accepted)}
    {
      var f: Flag :| n == t + Suffix(f);
      assert f == HltAccepted || f == HltNotPrescaled || f == L1NotPrescaled || f == L1Accepted;
    }
  }

  /** Appending a trigger adds exactly its own names. */
  lemma TriggerNamesSnoc(rest: seq<string>, t: string)
    ensures TriggerNames(rest + [t]) == TriggerNames(rest) + OwnNames(t)
  {
    var triggers := rest + [t];
    forall n | n in TriggerNames(triggers)
      ensures n in TriggerNames(rest) + OwnNames(t)
    {
      var u, f: Flag :| u in triggers && n == u + Suffix(f);
      if u != t {
        assert u in rest;
      }
    }
    forall n | n in TriggerNames(rest) + OwnNames(t)
      ensures n in TriggerNames(triggers)
    {
      if n in OwnNames(t) {
        var f: Flag :| n == t + Suffix(f);
        assert t in triggers;
      } else {
        var u, f: Flag :| u in rest && n == u + Suffix(f);
        assert u in triggers;
      }
    }
  }

  /** The registry's names: those of `base` and four per listed trigger. */
  lemma {:induction false} TriggerSelectionsKeys(base: map<string, Mask>, batch: seq<NanoEvent>, triggers: seq<string>)
    requires HasPaths(batch, triggers)
    ensures TriggerSelections(base, batch, triggers).Keys == base.Keys + TriggerNames(triggers)
  {
    if triggers != [] {
      var t, rest := triggers[|triggers| - 1], triggers[..|triggers| - 1];
      HasPathsPrefix(batch, triggers, |triggers| - 1);
      TriggerSelectionsKeys(base, batch, rest);
      TriggerOwnNames(t);
      assert triggers == rest + [t];
      TriggerNamesSnoc(rest, t);
    }
  }

  /** Whatever came before, a listed trigger's four masks are its flags:
      the accept bits as read, the prescale bits negated. */
  lemma {:induction false} TriggerSelectionsAt(base: map<string, Mask>, batch: seq<NanoEvent>, triggers: seq<string>, t: string, f: Flag)
    requires HasPaths(batch, triggers) && t in triggers
    ensures t + Suffix(f) in TriggerSelections(base, batch, triggers)
    ensures TriggerSelections(base, batch, triggers)[t + Suffix(f)] == FlagMask(batch, t, f)
  {
    var u, rest := triggers[|triggers| - 1], triggers[..|triggers| - 1];
    HasPathsPrefix(batch, triggers, |triggers| - 1);
    if u != t {
      assert t in rest by {
        assert triggers == rest + [u];
      }
      TriggerSelectionsAt(base, batch, rest, t, f);
      forall g: Flag
        ensures u + Suffix(g) != t + Suffix(f)
      {
        if u + Suffix(g) == t + Suffix(f) {
          TriggerNameInjective(u, g, t, f);
        }
      }
    } else {
      forall g: Flag | g != f
        ensures u + Suffix(g) != t + Suffix(f)
      {
        if u + Suffix(g) == t + Suffix(f) {
          TriggerNameInjective(u, g, t, f);
        }
      }
    }
  }

  /** A name that is not a trigger's keeps the mask `base` gave it. */
  lemma {:induction false} TriggerSelectionsKeepBase(base: map<string, Mask>, batch: seq<NanoEvent>, triggers: seq<string>, name: string)
    requires HasPaths(batch, triggers) && name in base
    requires forall t, f: Flag :: name != t + Suffix(f)
    ensures name in TriggerSelections(base, batch, triggers)
    ensures TriggerSelections(base, batch, triggers)[name] == base[name]
  {
    if triggers != [] {
      HasPathsPrefix(batch, triggers, |triggers| - 1);
      TriggerSelectionsKeepBase(base, batch, triggers[..|triggers| - 1], name);
    }
  }

  /** Every registered mask, the lumi mask's and the triggers', has one
      entry per event. */
  lemma TriggerSelectionsAligned(batch: seq<NanoEvent>, lumiMask: Mask)
    requires HasPaths(batch, Triggers) && |lumiMask| == |batch|
    ensures Aligned(TriggerSelections(map["lumi_mask" := lumiMask], batch, Triggers), |batch|)
  {
    var base := map["lumi_mask" := lumiMask];
    var sels := TriggerSelections(base, batch, Triggers);
    TriggerSelectionsKeys(base, batch, Triggers);
    forall name | name in sels
      ensures |sels[name]| == |batch|
    {
      if name != "lumi_mask" {
        var t, f: Flag :| t in Triggers && name == t + Suffix(f);
        TriggerSelectionsAt(base, batch, Triggers, t, f);
      } else {
        forall t, f: Flag ensures name != t + Suffix(f) {
          LumiMaskNotTriggerName(t, f);
        }
        TriggerSelectionsKeepBase(base, batch, Triggers, name);
      }
    }
  }

  /** Once the lumi mask and a trigger's four masks are registered, both of
      its regions can be evaluated. */
  lemma TriggerRegionsDefined(sels: map<string, Mask>, t: string)
    requires "lumi_mask" in sels && forall f: Flag :: t + Suffix(f) in sels
    ensures Defined(sels, NumCuts(t)) && Defined(sels, DenCuts(t))
  {
    assert t + Suffix(HltAccepted) in sels && t + Suffix(HltNotPrescaled) in sels;
    assert t + Suffix(L1NotPrescaled) in sels && t + Suffix(L1Accepted) in sels;
  }

  /** Every cut the region table names is registered, provided the lumi
      mask is. */
  lemma {:induction false} TriggerSelectionsCoverRegions(base: map<string, Mask>, batch: seq<NanoEvent>, triggers: seq<string>)
    requires HasPaths(batch, triggers) && "lumi_mask" in base
    ensures CutsDefined(RegionTable(triggers), TriggerSelections(base, batch, triggers))
  {
    var table := RegionTable(triggers);
    var sels := TriggerSelections(base, batch, triggers);
    TriggerSelectionsKeys(base, batch, triggers);
    forall region | region in table
      ensures Defined(sels, table[region])
    {
      var t := RegionOrigin(triggers, region);
      forall f: Flag
        ensures t + Suffix(f) in sels
      {
        assert t + Suffix(f) in TriggerNames(triggers);
      }
      TriggerRegionsDefined(sels, t);
    }
  }

  /** The names of a trigger not yet listed are still free. */
  lemma {:induction false} TriggerNamesFresh(base: map<string, Mask>, batch: seq<NanoEvent>, triggers: seq<string>, t: string)
    requires HasPaths(batch, triggers) && t !in triggers
    requires forall f: Flag :: t + Suffix(f) !in base
    ensures forall f: Flag :: t + Suffix(f) !in TriggerSelections(base, batch, triggers)
  {
    TriggerSelectionsKeys(base, batch, triggers);
    forall f: Flag, g: Flag, u | u in triggers
      ensures t + Suffix(f) != u + Suffix(g)
    {
      if t + Suffix(f) == u + Suffix(g) {
        TriggerNameInjective(t, f, u, g);
      }
    }
  }

  /** A trigger's four names are pairwise different. */
  lemma SuffixesDistinct(t: string)
    ensures forall f: Flag, g: Flag :: f != g ==> t + Suffix(f) != t + Suffix(g)
  {
    forall f: Flag, g: Flag | f != g
      ensures t + Suffix(f) != t + Suffix(g)
    {
      if t + Suffix(f) == t + Suffix(g) {
        TriggerNameInjective(t, f, t, g);
      }
    }
  }

  /** The registry once process has added everything: the lumi mask and
      four masks per trigger. Every cut the region table names is among
      them, so no region of the table can fail. */
  function CustomSelections(batch: seq<NanoEvent>, lumiMask: Mask): (sels: map<string, Mask>)
    requires HasPaths(batch, Triggers) && |lumiMask| == |batch|
    ensures Aligned(sels, |batch|)
    ensures CutsDefined(RegionTable(Triggers), sels)
  {
    TriggerSelectionsAligned(batch, lumiMask);
    TriggerSelectionsCoverRegions(map["lumi_mask" := lumiMask], batch, Triggers);
    TriggerSelections(map["lumi_mask" := lumiMask], batch, Triggers)
  }

  /** The registered masks of a trigger are its flags, prescale bits negated:
      `_HLTPathNotPrescaled[i] == !HLTPathPrescaled[i]` and
      `_L1TSeedNotPrescaled[i] == !L1TSeedPrescaledOrMasked[i]`. */
  lemma TriggerMasks(batch: seq<NanoEvent>, lumiMask: Mask, t: string, i: nat)
    requires HasPaths(batch, Triggers) && |lumiMask| == |batch| && t in Triggers && i < |batch|
    ensures var sels := CustomSelections(batch, lumiMask);
            t + "_HLTPathAccept" in sels && sels[t + "_HLTPathAccept"][i] == batch[i].paths[t].hltAccept
    ensures var sels := CustomSelections(batch, lumiMask);
            t + "_HLTPathNotPrescaled" in sels && sels[t + "_HLTPathNotPrescaled"][i] == !batch[i].paths[t].hltPrescaled
    ensures var sels := CustomSelections(batch, lumiMask);
            t + "_L1TSeedNotPrescaled" in sels && sels[t + "_L1TSeedNotPrescaled"][i] == !batch[i].paths[t].l1PrescaledOrMasked
    ensures var sels := CustomSelections(batch, lumiMask);
            t + "_L1TSeedAccept" in sels && sels[t + "_L1TSeedAccept"][i] == batch[i].paths[t].l1Accept
  {
    TriggerSelectionsAt(map["lumi_mask" := lumiMask], batch, Triggers, t, HltAccepted);
    TriggerSelectionsAt(map["lumi_mask" := lumiMask], batch, Triggers, t, HltNotPrescaled);
    TriggerSelectionsAt(map["lumi_mask" := lumiMask], batch, Triggers, t, L1NotPrescaled);
    TriggerSelectionsAt(map["lumi_mask" := lumiMask], batch, Triggers, t, L1Accepted);
  }

  /** The registered lumi mask is the one computed: the year's golden list,
      or every event when the year has none. */
  lemma LumiMaskRegistered(batch: seq<NanoEvent>, lumiMasks: map<int, GoldenList>, year: int, i: nat)
    requires HasPaths(batch, Triggers) && i < |batch|
    ensures "lumi_mask" in CustomSelections(batch, YearLumiMask(lumiMasks, year, Ids(batch)))
    ensures year !in lumiMasks ==> CustomSelections(batch, YearLumiMask(lumiMasks, year, Ids(batch)))["lumi_mask"][i]
    ensures year in lumiMasks ==>
              (CustomSelections(batch, YearLumiMask(lumiMasks, year, Ids(batch)))["lumi_mask"][i] <==>
               Certified(lumiMasks[year], batch[i].id))
  {
    var lumi := YearLumiMask(lumiMasks, year, Ids(batch));
    forall t, f: Flag ensures "lumi_mask" != t + Suffix(f) {
      LumiMaskNotTriggerName(t, f);
    }
    TriggerSelectionsKeepBase(map["lumi_mask" := lumi], batch, Triggers, "lumi_mask");
  }

  /** The histograms customNano fills, per event. */
  function Columns(batch: seq<NanoEvent>): (columns: map<string, Column>)
    ensures ColumnsAligned(columns, |batch|)
  {
    map["ak4_pt0" := Scalar(LeadingJetPts(batch)), "ht" := Scalar(Hts(batch)), "met" := Scalar(Mets(batch))]
  }

  function LeadingJetPts(batch: seq<NanoEvent>): (v: seq<real>)
    ensures |v| == |batch|
  {
    seq(|batch|, i requires 0 <= i < |batch| => batch[i].leadingJetPt)
  }

  function Hts(batch: seq<NanoEvent>): (v: seq<real>)
    ensures |v| == |batch|
  {
    seq(|batch|, i requires 0 <= i < |batch| => batch[i].ht)
  }

  function Mets(batch: seq<NanoEvent>): (v: seq<real>)
    ensures |v| == |batch|
  {
    seq(|batch|, i requires 0 <= i < |batch| => batch[i].met)
  }

  /** What process returns for a non-empty batch of a resolved year. */
  function Output(batch: seq<NanoEvent>, dataset: string, year: int, lumiMasks: map<int, GoldenList>): Accumulator
    requires HasPaths(batch, Triggers)
  {
    Filled(RegionTable(Triggers), CustomSelections(batch, YearLumiMask(lumiMasks, year, Ids(batch))), |batch|, dataset, Columns(batch))
  }

  /** Every event counted in a trigger's numerator is counted in its
      denominator: each numerator histogram is a sub-multiset of the
      denominator's, with no more entries. */
  lemma NumeratorWithinDenominator(batch: seq<NanoEvent>, dataset: string, year: int, lumiMasks: map<int, GoldenList>,
                                   t: string, hist: string)
    requires HasPaths(batch, Triggers) && t in Triggers && hist in Columns(batch)
    ensures Contents(Output(batch, dataset, year, lumiMasks), HistKey(hist, NumRegion(t), dataset)) <=
            Contents(Output(batch, dataset, year, lumiMasks), HistKey(hist, DenRegion(t), dataset))
    ensures |Contents(Output(batch, dataset, year, lumiMasks), HistKey(hist, NumRegion(t), dataset))| <=
            |Contents(Output(batch, dataset, year, lumiMasks), HistKey(hist, DenRegion(t), dataset))|
  {
    var sels := CustomSelections(batch, YearLumiMask(lumiMasks, year, Ids(batch)));
    FilledNarrowerRegion(RegionTable(Triggers), sels, |batch|, dataset, Columns(batch), NumRegion(t), DenRegion(t), hist);
  }

  /** Each region's histograms receive one value per event passing all of
      the region's cuts. */
  lemma FillCountsPassingEvents(batch: seq<NanoEvent>, dataset: string, year: int, lumiMasks: map<int, GoldenList>,
                                region: string, hist: string)
    requires HasPaths(batch, Triggers) && region in RegionTable(Triggers) && hist in Columns(batch)
    ensures |Contents(Output(batch, dataset, year, lumiMasks), HistKey(hist, region, dataset))| ==
            TrueCount(RegionMask(CustomSelections(batch, YearLumiMask(lumiMasks, year, Ids(batch))), RegionTable(Triggers)[region], |batch|))
  {
    var sels := CustomSelections(batch, YearLumiMask(lumiMasks, year, Ids(batch)));
    var columns := Columns(batch);
    var values := if hist == "ak4_pt0" then LeadingJetPts(batch) else if hist == "ht" then Hts(batch) else Mets(batch);
    FilledScalarCount(RegionTable(Triggers), sels, |batch|, dataset, columns, region, hist, values);
  }

  /** No trigger is listed twice. */
  lemma TriggersDistinct(j: nat)
    requires j < |Triggers|
    ensures Triggers[j] !in Triggers[..j]
  {
  }

  /** The registration loop of process: for each trigger in turn, its HLT
      accept bit, its HLT and L1 prescale bits negated and its L1 accept bit. */
  method AddTriggerSelections(sel: Registry, batch: seq<NanoEvent>, triggers: seq<string>)
    requires sel.Valid() && sel.size == |batch| && HasPaths(batch, triggers)
    requires forall j :: 0 <= j < |triggers| ==> triggers[j] !in triggers[..j]
    requires forall t, f: Flag :: t + Suffix(f) !in sel.masks
    modifies sel
    ensures sel.Valid() && sel.masks == TriggerSelections(old(sel.masks), batch, triggers)
  {
    ghost var base := sel.masks;
    for j := 0 to |triggers|
      invariant sel.Valid() && sel.size == |batch|
      invariant HasPaths(batch, triggers[..j])
      invariant sel.masks == TriggerSelections(base, batch, triggers[..j])
    {
      HasPathsPrefix(batch, triggers, j + 1);
      var trigger := triggers[j];
      assert triggers[..j + 1][..j] == triggers[..j];
      TriggerNamesFresh(base, batch, triggers[..j], trigger);
      SuffixesDistinct(trigger);
      sel.Add(trigger + Suffix(HltAccepted), FlagMask(batch, trigger, HltAccepted));
      sel.Add(trigger + Suffix(HltNotPrescaled), FlagMask(batch, trigger, HltNotPrescaled));
      sel.Add(trigger + Suffix(L1NotPrescaled), FlagMask(batch, trigger, L1NotPrescaled));
      sel.Add(trigger + Suffix(L1Accepted), FlagMask(batch, trigger, L1Accepted));
    }
    assert triggers[..|triggers|] == triggers;
  }

  class CustomNanoProcessor {
    /** self._year: set by _configure once the dataset's year is known. */
    var year: Option<int>

    constructor ()
      ensures year == None
    {
      year := None;
    }

    /** _configure: resolves the dataset's year; extract_year's failure is
        not caught. */
    method Configure(extracted: Option<int>) returns (r: Result<int>)
      modifies this
      ensures extracted.None? ==> r == Err(UnresolvableYear) && year == old(year)
      ensures extracted.Some? ==> r == Ok(extracted.value) && year == extracted
    {
      if extracted.None? {
        return Err(UnresolvableYear);
      }
      year := extracted;
      r := Ok(extracted.value);
    }

    /** process: an empty batch gives the accumulator's identity; otherwise
        the year must resolve, the selections are registered and every
        region of the table is filled. `extracted` is what extract_year
        gives for the dataset (None when it raises), `lumiMasks` the
        LUMI_MASKS setting with its golden lists read. */
    method Process(batch: seq<NanoEvent>, dataset: string, extracted: Option<int>, lumiMasks: map<int, GoldenList>)
      returns (r: Result<Accumulator>)
      requires HasPaths(batch, Triggers)
      modifies this
      ensures |batch| == 0 ==> r == Ok(Identity()) && year == old(year)
      ensures |batch| > 0 && extracted.None? ==> r == Err(UnresolvableYear) && year == old(year)
      ensures |batch| > 0 && extracted.Some? ==>
                year == extracted && r == Ok(Output(batch, dataset, extracted.value, lumiMasks))
    {
      if |batch| == 0 {
        return Ok(Identity());
      }
      var configured := Configure(extracted);
      if configured.Err? {
        return Err(configured.failure);
      }
      var sel := new Registry(|batch|);
      var lumiMask := YearLumiMask(lumiMasks, configured.value, Ids(batch));
      sel.Add("lumi_mask", lumiMask);
      forall t, f: Flag
        ensures t + Suffix(f) !in sel.masks
      {
        LumiMaskNotTriggerName(t, f);
      }
      forall j | 0 <= j < |Triggers|
        ensures Triggers[j] !in Triggers[..j]
      {
        TriggersDistinct(j);
      }
      AddTriggerSelections(sel, batch, Triggers);
      assert sel.masks == CustomSelections(batch, lumiMask);
      var regions := RegionsForCustomNano(Triggers);
      r := FillRegions(regions, sel, dataset, Columns(batch));
    }
  }
}
