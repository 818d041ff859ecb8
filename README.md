# jme-cofftea selection and region engine, in Dafny

This project models the event-selection core of jme-cofftea, the CMS
jet/MET trigger-study framework built on coffea. Three processors turn a
batch of events into filled histograms:

- `customNanoProcessor` reads custom NanoAOD and studies 14 single-jet,
  forward-jet and HT paths.
- `jmeNanoProcessor` reads the JME trigger ntuple. It applies a Z to mumu
  tag on the two leading muons and studies 6 jet paths against HLT_IsoMu27.
- `hltProcessor` runs the MET-trigger study on a fixed 2022 golden JSON.

Each processor resolves the dataset's year and registers named per-event
boolean masks in a selection registry (coffea's `PackedSelection`). It then
evaluates every analysis region as the AND of that region's cuts. Every
histogram of the region receives the values of the passing events.
`regionsForCustomNanoProcessor` builds the custom-NanoAOD region table.
`run_quick.py` picks the processor and tree from the command line, points
`/store/` files at the global xrootd redirector, and names the output files.

Modules:

- `Common`: `Option` and `Result`, plus the failures that abort a run:
  - an unresolvable year;
  - a region cut that was never registered;
  - an unknown processor name.
- `Lumi`: golden lists and the lumi mask, including the fail-open mask used
  when a year has no golden list.
- `Candidates`: awkward's `distincts()` pairs, `[:, :2]`, `argmax` and
  `any`.
- `Selection`: per-event masks, region masks, and the `Registry` class.
  The registry's `masks` map is updated in place by `Add`; `All` is
  `selection.all`.
- `Hist`: the accumulator as a multiset of filled values per
  (histogram, region, dataset). `Filled` states what the fill loop
  produces, and the `FillRegions` method is that loop.
- `CustomNanoRegions`, `CustomNano`, `JmeNano`, `Hlt`, `RunQuick`: one
  module per core file.

Each processor is a class whose `year` field is `_configure`'s `self._year`.
Its `Process` method registers the selections in the source's order, in
helper methods that each end with the registry equal to a specification
function such as `Selections` or `CustomSelections`. It then runs the fill
loop. The properties of the registered masks are proved as lemmas about
those functions.

Some inputs come from code outside this model and are taken as parameters:

- `extracted: Option<int>` is `extract_year`'s answer; `None` means it
  raised.
- `lumiMasks` / `golden` are the golden JSON files, already read, from the
  `LUMI_MASKS` setting or the fixed 2022 file.
- `regions` is `hlt_regions()` or `regions_for_jmenano()`.
- `kin` and `mass` are the dimuon invariant mass and pt.
- `MuonConfig` holds the dynaconf muon cuts and mass window.
- The recoil pt and the MET-filter AND are event fields.

## Model

| member | source | states |
|---|---|---|
| Lumi.GoldenMask | bucoffea/hlt/hltProcessor.py:48-50 | one entry per event, true exactly when the golden list certifies the event's (run, lumi block) |
| Lumi.Certified | bucoffea/hlt/hltProcessor.py:48-49 | an event is certified when its run is listed and its lumi block lies in one of that run's ranges, both bounds included |
| Lumi.YearLumiMask | jmecofftea/custom_nano/customNanoProcessor.py:54-61 | a year without a golden list lets every event through; a year with one keeps exactly the certified events |
| Candidates.Distincts | bucoffea/hlt/hltProcessor.py:72 | fewer than two candidates form no pair |
| Candidates.DistinctsMembership | bucoffea/hlt/hltProcessor.py:72 | a pair is listed exactly when it is the candidates at two positions a < b |
| Candidates.DistinctsSome | bucoffea/hlt/hltProcessor.py:80-82 | `(cond over dimuons).any()` holds exactly when the candidates at some positions a < b satisfy the condition |
| Candidates.LeadingTwo | jmecofftea/jmenano/jmeNanoProcessor.py:74 | `[:, :2]` keeps a prefix of at most two candidates |
| Candidates.DistinctsOfLeadingTwo | jmecofftea/jmenano/jmeNanoProcessor.py:74 | the pairs of the two leading candidates: none with fewer than two, otherwise exactly (first, second) |
| Candidates.Abs | bucoffea/hlt/hltProcessor.py:56 | `abseta`: the absolute value of a pseudorapidity |
| Candidates.ArgMax | bucoffea/hlt/hltProcessor.py:53 | the index of a maximum, the first one on ties |
| Candidates.Any | bucoffea/hlt/hltProcessor.py:79 | `.any()` over one event's candidates: false without candidates |
| Candidates.AnyExists | bucoffea/hlt/hltProcessor.py:79 | `.any()` holds exactly when some flag is set |
| Selection.EventMask | bucoffea/hlt/hltProcessor.py:83 | a columnar condition such as `muons.counts==2`: one entry per event, set exactly when that event satisfies the condition |
| Selection.RegionMask | jmecofftea/custom_nano/customNanoProcessor.py:106 | a region's mask has one entry per event |
| Selection.MoreCutsFewerEvents | jmecofftea/custom_nano/customNanoProcessor.py:104-106 | an event passing a region with more cuts passes any region whose cuts are among them, in any order |
| Selection.Registry.constructor | jmecofftea/custom_nano/customNanoProcessor.py:48 | a fresh selection registry is empty |
| Selection.Registry.Add | jmecofftea/custom_nano/customNanoProcessor.py:63 | adds exactly one name with its mask and keeps every mask one entry per event |
| Selection.Registry.All | jmecofftea/custom_nano/customNanoProcessor.py:106 | fails exactly when a cut is unregistered, naming the first such cut in list order; otherwise it is the element-wise AND of the cuts |
| Hist.Identity | jmecofftea/custom_nano/customNanoProcessor.py:99 | `accumulator.identity()`: no histogram holds anything |
| Hist.Selected | jmecofftea/custom_nano/customNanoProcessor.py:117-119 | `column[mask]` flattened: the values of the kept events, in event order |
| Hist.TrueCount | jmecofftea/custom_nano/customNanoProcessor.py:106 | the number of events a mask keeps |
| Hist.SelectedScalarCount | jmecofftea/custom_nano/customNanoProcessor.py:117-119 | `column[mask]` of a per-event quantity has one value per passing event |
| Hist.SelectedMembership | jmecofftea/jmenano/jmeNanoProcessor.py:138-143 | `column[mask].flatten()` holds a value exactly when some passing event contributes it |
| Hist.SelectedScalarMembership | bucoffea/hlt/hltProcessor.py:128 | the same for a per-event quantity: some passing event has that value |
| Hist.SelectedMonotone | jmecofftea/custom_nano/customNanoProcessor.py:106-119 | a mask that implies another fills a sub-multiset of its values |
| Hist.SelectedNothing | jmecofftea/custom_nano/customNanoProcessor.py:106-119 | a mask no event passes fills nothing |
| Hist.Fill | jmecofftea/custom_nano/customNanoProcessor.py:108-114 | `ezfill` adds the values to one key and leaves every other key as it was |
| Hist.Filled | jmecofftea/custom_nano/customNanoProcessor.py:99-119 | the fill loop's result: under each region of the table, each histogram and the dataset, the values of the events passing all of the region's cuts |
| Hist.FilledContents | jmecofftea/custom_nano/customNanoProcessor.py:104-119 | after the fill loop, a histogram of a region of the dataset holds the passing events' values; every other key is empty |
| Hist.FilledNarrowerRegion | jmecofftea/custom_nano/customNanoProcessor.py:104-119 | a region whose cuts include another's fills a sub-multiset of the other's values, with no more entries |
| Hist.FilledMembership | jmecofftea/jmenano/jmeNanoProcessor.py:126-143 | a value is in a region's histogram exactly when some passing event contributes it |
| Hist.FilledScalarCount | jmecofftea/custom_nano/customNanoProcessor.py:117-119 | a per-event histogram of a region gets one entry per passing event |
| Hist.FilledExactly | jmecofftea/custom_nano/customNanoProcessor.py:104-119 | an accumulator holding exactly the passing values under exactly the fill keys is the fill loop's result |
| Hist.FillRegions | bucoffea/hlt/hltProcessor.py:105-128 | the fill loop fails exactly when some region names an unregistered cut, and then with the first unregistered cut of such a region, as `selection.all` reports it; otherwise it returns the `Filled` accumulator |
| CustomNanoRegions.NumRegion | jmecofftea/custom_nano/definitions.py:24 | the numerator region's name: the trigger followed by `_num` |
| CustomNanoRegions.DenRegion | jmecofftea/custom_nano/definitions.py:25 | the denominator region's name: the trigger followed by `_den` |
| CustomNanoRegions.DenCuts | jmecofftea/custom_nano/definitions.py:14-25 | the denominator: `lumi_mask`, `_HLTPathNotPrescaled`, `_L1TSeedNotPrescaled` and `_L1TSeedAccept`, in that order |
| CustomNanoRegions.NumCuts | jmecofftea/custom_nano/definitions.py:24 | the numerator: the denominator's cuts followed by `_HLTPathAccept` |
| CustomNanoRegions.RegionNamesDistinct | jmecofftea/custom_nano/definitions.py:24-25 | `_num` and `_den` names never collide, and different triggers give different names |
| CustomNanoRegions.RegionTable | jmecofftea/custom_nano/definitions.py:7-27 | every listed trigger has a `_num` region with the five numerator cuts and a `_den` region with the four denominator cuts |
| CustomNanoRegions.RegionOrigin | jmecofftea/custom_nano/definitions.py:17-25 | every region in the table is a listed trigger's `_num` or `_den` region |
| CustomNanoRegions.NoTriggersNoRegions | jmecofftea/custom_nano/definitions.py:11-27 | no triggers give an empty table |
| CustomNanoRegions.RepeatedTriggerChangesNothing | jmecofftea/custom_nano/definitions.py:17-25 | listing a trigger again leaves the table unchanged |
| CustomNanoRegions.RegionCutsShape | jmecofftea/custom_nano/definitions.py:14-25 | the denominator is the lumi mask, both prescale cuts and the L1 accept; the numerator is the denominator plus the HLT accept |
| CustomNanoRegions.RegionsForCustomNano | jmecofftea/custom_nano/definitions.py:7-27 | the loop builds exactly `RegionTable` |
| CustomNano.FlagOf | jmecofftea/custom_nano/customNanoProcessor.py:88-97 | `_HLTPathAccept` and `_L1TSeedAccept` read the accept bits as they are; the two prescale bits are negated |
| CustomNano.FlagMask | jmecofftea/custom_nano/customNanoProcessor.py:86-97 | one entry per event |
| CustomNano.TriggerNameInjective | jmecofftea/custom_nano/customNanoProcessor.py:86-97 | a registered trigger name determines its trigger and its flag |
| CustomNano.LumiMaskNotTriggerName | jmecofftea/custom_nano/customNanoProcessor.py:63-97 | `lumi_mask` never clashes with a trigger's name |
| CustomNano.TriggerOwnNames | jmecofftea/custom_nano/customNanoProcessor.py:86-97 | a trigger registers exactly its four suffixed names |
| CustomNano.TriggerNamesSnoc | jmecofftea/custom_nano/customNanoProcessor.py:86-97 | one more trigger adds exactly its own four names |
| CustomNano.TriggerSelections | jmecofftea/custom_nano/customNanoProcessor.py:86-97 | the registry after the loop: each trigger, in list order, adds its four suffixed masks on top of the earlier ones |
| CustomNano.TriggerSelectionsKeys | jmecofftea/custom_nano/customNanoProcessor.py:86-97 | after the loop, the registered names are the earlier ones plus four per trigger |
| CustomNano.TriggerSelectionsAt | jmecofftea/custom_nano/customNanoProcessor.py:86-97 | each trigger-and-flag name holds that flag's mask |
| CustomNano.TriggerSelectionsKeepBase | jmecofftea/custom_nano/customNanoProcessor.py:86-97 | a name that is not a trigger name keeps its earlier mask |
| CustomNano.TriggerSelectionsAligned | jmecofftea/custom_nano/customNanoProcessor.py:63-97 | every registered mask has one entry per event |
| CustomNano.TriggerRegionsDefined | jmecofftea/custom_nano/definitions.py:20-25 | once the lumi mask and a trigger's four masks are registered, both of its regions are defined |
| CustomNano.TriggerSelectionsCoverRegions | jmecofftea/custom_nano/customNanoProcessor.py:86-106 | every cut in the region table is registered, so no region lookup fails |
| CustomNano.TriggerNamesFresh | jmecofftea/custom_nano/customNanoProcessor.py:86-97 | the names of a trigger not yet processed are still free |
| CustomNano.SuffixesDistinct | jmecofftea/custom_nano/customNanoProcessor.py:88-97 | a trigger's four names are pairwise different |
| CustomNano.CustomSelections | jmecofftea/custom_nano/customNanoProcessor.py:50-97 | the full registry is aligned and defines every cut of the region table |
| CustomNano.TriggerMasks | jmecofftea/custom_nano/customNanoProcessor.py:86-97 | `_HLTPathAccept` and `_L1TSeedAccept` are the accept bits; both `NotPrescaled` masks are the negated prescale bits |
| CustomNano.LumiMaskRegistered | jmecofftea/custom_nano/customNanoProcessor.py:54-63 | the registered lumi mask passes every event without a golden list for the year; otherwise it passes exactly the certified events |
| CustomNano.Columns | jmecofftea/custom_nano/customNanoProcessor.py:117-119 | each histogram column has one entry per event |
| CustomNano.Output | jmecofftea/custom_nano/customNanoProcessor.py:99-121 | the result of a resolved year: the region table filled from the identity with `met`, `ht` and `ak4_pt0` over the lumi and trigger masks |
| CustomNano.NumeratorWithinDenominator | jmecofftea/custom_nano/customNanoProcessor.py:104-119 | each numerator histogram is a sub-multiset of its denominator's, with no more entries |
| CustomNano.FillCountsPassingEvents | jmecofftea/custom_nano/customNanoProcessor.py:104-119 | each region histogram receives one value per event passing all the region's cuts |
| CustomNano.TriggersDistinct | jmecofftea/custom_nano/customNanoProcessor.py:66-84 | no trigger is listed twice |
| CustomNano.AddTriggerSelections | jmecofftea/custom_nano/customNanoProcessor.py:86-97 | the registration loop leaves exactly `TriggerSelections` of the earlier registry |
| CustomNano.CustomNanoProcessor.constructor | jmecofftea/custom_nano/customNanoProcessor.py:17-18 | a new processor has no year yet |
| CustomNano.CustomNanoProcessor.Configure | jmecofftea/custom_nano/customNanoProcessor.py:24-38 | sets the year to `extract_year`'s answer; fails with the year untouched when `extract_year` raises |
| CustomNano.CustomNanoProcessor.Process | jmecofftea/custom_nano/customNanoProcessor.py:40-121 | an empty batch gives the identity and keeps the year; an unresolvable year fails and keeps the year; otherwise the year is set and the result is the filled region table |
| JmeNano.YearOrSentinel | jmecofftea/jmenano/jmeNanoProcessor.py:33-36 | the year `extract_year` gives, or -1 when it raises |
| JmeNano.Dimuons | jmecofftea/jmenano/jmeNanoProcessor.py:74 | the pairs of the two leading muons |
| JmeNano.OppSign | jmecofftea/jmenano/jmeNanoProcessor.py:77-78 | some dimuon has pdgIds of opposite sign |
| JmeNano.TwoMuons | jmecofftea/jmenano/jmeNanoProcessor.py:81 | there is a dimuon |
| JmeNano.CentralMuons | jmecofftea/jmenano/jmeNanoProcessor.py:84-85 | some dimuon has both muons within abs(eta) < 2.3 |
| JmeNano.MuonPt | jmecofftea/jmenano/jmeNanoProcessor.py:88-89 | some dimuon has both muons above 20 GeV |
| JmeNano.DimuonMass | jmecofftea/jmenano/jmeNanoProcessor.py:92-93 | some dimuon's mass lies strictly between 70 and 110 GeV |
| JmeNano.DimuonPt | jmecofftea/jmenano/jmeNanoProcessor.py:96 | some dimuon's pt is above 15 GeV |
| JmeNano.LeadingJet | jmecofftea/jmenano/jmeNanoProcessor.py:99-100 | no jets give no leading jet; otherwise it is a jet with the highest pt, and the first such jet, as `argmax` picks it |
| JmeNano.LeadJetInBarrel | jmecofftea/jmenano/jmeNanoProcessor.py:99-101 | the leading jet exists and lies within abs(eta) < 1.3 |
| JmeNano.InclusiveMask | jmecofftea/jmenano/jmeNanoProcessor.py:57-58 | `pass_all`: every event passes |
| JmeNano.DimuonMassMask | jmecofftea/jmenano/jmeNanoProcessor.py:92-93 | the `dimuon_mass` mask: per event, the dimuon mass cut |
| JmeNano.DimuonPtMask | jmecofftea/jmenano/jmeNanoProcessor.py:96 | the `dimuon_pt` mask: per event, the dimuon pt cut |
| JmeNano.LumiAndMuonSelections | jmecofftea/jmenano/jmeNanoProcessor.py:57-81 | the first four registrations: `inclusive`, `lumi_mask`, `opp_sign` and `two_muons` |
| JmeNano.BaseSelections | jmecofftea/jmenano/jmeNanoProcessor.py:57-101 | the nine registrations before the trigger loop, each name with its cut |
| JmeNano.FlagOf | jmecofftea/jmenano/jmeNanoProcessor.py:114-119 | `_accepted` (and `HLT_IsoMu27`) reads the accept bit as it is; `_wasrun` is the negated prescale bit |
| JmeNano.FlagMask | jmecofftea/jmenano/jmeNanoProcessor.py:113-119 | one entry per event |
| JmeNano.TriggerNameInjective | jmecofftea/jmenano/jmeNanoProcessor.py:113-115 | an `_accepted` or `_wasrun` name determines its trigger and its flag |
| JmeNano.TriggerSelections | jmecofftea/jmenano/jmeNanoProcessor.py:113-115 | the registry after the loop: each trigger, in list order, adds its `_accepted` and `_wasrun` masks on top of the earlier ones |
| JmeNano.TriggerSelectionsKeys | jmecofftea/jmenano/jmeNanoProcessor.py:113-115 | after the loop, the registered names are the earlier ones plus two per trigger |
| JmeNano.TriggerSelectionsAt | jmecofftea/jmenano/jmeNanoProcessor.py:113-115 | each trigger-and-flag name holds that flag's mask |
| JmeNano.TriggerSelectionsKeepBase | jmecofftea/jmenano/jmeNanoProcessor.py:113-115 | a name that is not a trigger name keeps its earlier mask |
| JmeNano.OtherNameNotTriggerName | jmecofftea/jmenano/jmeNanoProcessor.py:58-119 | no name registered outside the loop has the shape of a loop name |
| JmeNano.TriggerSelectionsAligned | jmecofftea/jmenano/jmeNanoProcessor.py:113-115 | the loop keeps every mask one entry per event |
| JmeNano.Selections | jmecofftea/jmenano/jmeNanoProcessor.py:56-119 | the full registry is aligned and holds the ten names outside the loop, both names of every trigger and `HLT_IsoMu27_wasrun` |
| JmeNano.SelectionsKeepBase | jmecofftea/jmenano/jmeNanoProcessor.py:57-119 | masks registered before the trigger loop survive it unchanged |
| JmeNano.InclusivePassesAll | jmecofftea/jmenano/jmeNanoProcessor.py:57-58 | `inclusive` passes every event |
| JmeNano.LumiMaskFailsOpen | jmecofftea/jmenano/jmeNanoProcessor.py:62-71 | without a golden list for the year (the -1 sentinel included), `lumi_mask` equals `inclusive`; otherwise it passes exactly the certified events |
| JmeNano.DimuonPredicates | jmecofftea/jmenano/jmeNanoProcessor.py:74-96 | each dimuon cut holds exactly when there are two muons and the two leading muons pass it (opposite pdgId sign, abs(eta) < 2.3, pt > 20, 70 < mass < 110, pt > 15) |
| JmeNano.DimuonCuts | jmecofftea/jmenano/jmeNanoProcessor.py:76-96 | the registered dimuon masks are those cuts, event by event |
| JmeNano.FewerThanTwoMuonsFailDimuonCuts | jmecofftea/jmenano/jmeNanoProcessor.py:74-96 | an event with fewer than two muons fails every dimuon cut |
| JmeNano.LeadJetBarrelCut | jmecofftea/jmenano/jmeNanoProcessor.py:99-101 | `lead_ak4_in_barrel` holds exactly when there is a jet and the highest-pt one (first on ties) has abs(eta) < 1.3 |
| JmeNano.TriggerBits | jmecofftea/jmenano/jmeNanoProcessor.py:113-119 | `_accepted` is the accept bit and `_wasrun` the negated prescale bit, for every trigger and for HLT_IsoMu27 |
| JmeNano.LeadJetValues | jmecofftea/jmenano/jmeNanoProcessor.py:138-140 | no value without jets; otherwise the leading jet's value |
| JmeNano.DimuonPts | jmecofftea/jmenano/jmeNanoProcessor.py:143 | no value with fewer than two muons; otherwise the pt of the two leading muons |
| JmeNano.Columns | jmecofftea/jmenano/jmeNanoProcessor.py:137-143 | each histogram column has one entry per event |
| JmeNano.ZPtFilled | jmecofftea/jmenano/jmeNanoProcessor.py:143 | `z_pt` of a region holds a value exactly when some passing event with two muons has that dimuon pt |
| JmeNano.LeadJetPtEntry | jmecofftea/jmenano/jmeNanoProcessor.py:138 | an event's `ak4_pt0` entry is its leading jet's pt, or nothing without jets |
| JmeNano.LeadJetPtFilled | jmecofftea/jmenano/jmeNanoProcessor.py:126-138 | `ak4_pt0` of a region holds a value exactly when some passing event with a jet has that leading-jet pt |
| JmeNano.TriggersDistinct | jmecofftea/jmenano/jmeNanoProcessor.py:104-119 | no trigger is listed twice, and none is the reference path |
| JmeNano.TriggerNamesFresh | jmecofftea/jmenano/jmeNanoProcessor.py:113-115 | the names of a trigger not yet processed are still free |
| JmeNano.AddTriggerSelections | jmecofftea/jmenano/jmeNanoProcessor.py:113-115 | the registration loop leaves exactly `TriggerSelections` of the earlier registry |
| JmeNano.AddLumiAndMuonSelections | jmecofftea/jmenano/jmeNanoProcessor.py:57-81 | registers `inclusive`, `lumi_mask`, `opp_sign` and `two_muons` |
| JmeNano.AddBaseSelections | jmecofftea/jmenano/jmeNanoProcessor.py:57-101 | registers the nine masks before the trigger loop |
| JmeNano.BaseNamesFree | jmecofftea/jmenano/jmeNanoProcessor.py:57-115 | no trigger name is taken before the loop |
| JmeNano.ReferenceNamesFree | jmecofftea/jmenano/jmeNanoProcessor.py:118-119 | both reference names are still free after the loop |
| JmeNano.JmeNanoProcessor.constructor | jmecofftea/jmenano/jmeNanoProcessor.py:17-18 | a new processor has no year yet |
| JmeNano.JmeNanoProcessor.Configure | jmecofftea/jmenano/jmeNanoProcessor.py:24-44 | sets the year to `extract_year`'s answer, or to -1 when it raises |
| JmeNano.JmeNanoProcessor.Process | jmecofftea/jmenano/jmeNanoProcessor.py:46-145 | an empty batch gives the identity and keeps the year; otherwise the year (or -1) is set and the result fails exactly when a region names an unregistered cut, with the first such cut of such a region, or is the filled regions |
| Hlt.LeadJetPtEta | bucoffea/hlt/hltProcessor.py:53-57 | there is a jet, the highest jet pt is above 40 GeV and the argmax jet has abs(eta) < 4.5 |
| Hlt.LeadJetId | bucoffea/hlt/hltProcessor.py:53-60 | there is a jet and the argmax jet passes the loose ID |
| Hlt.LeadJetCuts | bucoffea/hlt/hltProcessor.py:53-60 | `leadak4_pt_eta` holds exactly when some jet is above 40 GeV and the highest-pt jet (first on ties) has abs(eta) < 4.5; `leadak4_id` holds exactly when that jet passes the loose ID; no jets fail both |
| Hlt.MetMhtTrig | bucoffea/hlt/hltProcessor.py:63 | `mftmht_trig`: the event fired HLT_PFMETNoMu120_PFMHTNoMu120_IDTight |
| Hlt.MetMhtCleanTrig | bucoffea/hlt/hltProcessor.py:64 | `mftmht_clean_trig`: the event fired the `_FilterHF` variant of that path |
| Hlt.IsoMu27 | bucoffea/hlt/hltProcessor.py:65 | `HLT_IsoMu27`: the event fired HLT_IsoMu27 |
| Hlt.Tight | bucoffea/hlt/hltProcessor.py:68-70 | a tight muon: iso below, pt above and abs(eta) below the configured thresholds |
| Hlt.IsTightMuon | bucoffea/hlt/hltProcessor.py:68-70 | one flag per muon |
| Hlt.LumiMaskFixed | bucoffea/hlt/hltProcessor.py:48-50 | `lumi_mask` is always the 2022 golden list's verdict |
| Hlt.OneAndTwoMuonsExclusive | bucoffea/hlt/hltProcessor.py:83-86 | `one_muon` and `two_muons` never hold together |
| Hlt.Vetoes | bucoffea/hlt/hltProcessor.py:94-97 | the vetoes hold exactly without electrons, and without photons |
| Hlt.TightMuMask | bucoffea/hlt/hltProcessor.py:79 | `at_least_one_tight_mu`: per event, `.any()` of the tight-muon flags |
| Hlt.DimuonMassMask | bucoffea/hlt/hltProcessor.py:80-81 | the `dimuon_mass` mask: per event, the mass-window cut over distinct pairs |
| Hlt.DimuonCharge | bucoffea/hlt/hltProcessor.py:72-82 | some pair of distinct muons has charges summing to 0 |
| Hlt.DimuonMass | bucoffea/hlt/hltProcessor.py:80-81 | some pair of distinct muons has a mass strictly inside the configured window |
| Hlt.TwoMuons | bucoffea/hlt/hltProcessor.py:83 | exactly two muons |
| Hlt.OneMuon | bucoffea/hlt/hltProcessor.py:86 | exactly one muon |
| Hlt.MuonPt30 | bucoffea/hlt/hltProcessor.py:87 | there is a muon and the highest muon pt is above 30 GeV |
| Hlt.VetoEle | bucoffea/hlt/hltProcessor.py:94 | no electrons |
| Hlt.VetoPho | bucoffea/hlt/hltProcessor.py:97 | no photons |
| Hlt.FiltMet | bucoffea/hlt/hltProcessor.py:100 | the event passes the MET filters |
| Hlt.CaloDiff | bucoffea/hlt/hltProcessor.py:101-102 | the recoil is non-zero and abs((MET - CaloMET) / recoil) < 0.5 |
| Hlt.LeadingSelections | bucoffea/hlt/hltProcessor.py:48-81 | the registrations from `lumi_mask` to `dimuon_mass`, each name with its cut |
| Hlt.MuonSelections | bucoffea/hlt/hltProcessor.py:48-87 | those and `dimuon_charge`, `two_muons`, `one_muon` and `muon_pt>30` |
| Hlt.Selections | bucoffea/hlt/hltProcessor.py:48-102 | every registration, ending with the vetoes, the MET filters and `calo_diff` |
| Hlt.DimuonChargeExists | bucoffea/hlt/hltProcessor.py:72-73 | some distinct pair has charges summing to 0 exactly when some positions a < b do |
| Hlt.DimuonChargeCut | bucoffea/hlt/hltProcessor.py:82 | `dimuon_charge` holds exactly for a neutral pair at positions a < b, so never with fewer than two muons |
| Hlt.DimuonMassExists | bucoffea/hlt/hltProcessor.py:80-81 | some distinct pair is inside the mass window exactly when some positions a < b are |
| Hlt.DimuonMassCut | bucoffea/hlt/hltProcessor.py:80-81 | `dimuon_mass` holds exactly when two distinct muons have a mass strictly inside the window |
| Hlt.TightMuonCut | bucoffea/hlt/hltProcessor.py:68-79 | `at_least_one_tight_mu` holds exactly when some muon passes the iso, pt and abs(eta) cuts |
| Hlt.MuonPt30Exists | bucoffea/hlt/hltProcessor.py:87 | the maximum muon pt is above 30 exactly when some muon's is |
| Hlt.CaloDiffBalance | bucoffea/hlt/hltProcessor.py:101-102 | `calo_diff` holds exactly when the recoil is non-zero and 2 abs(MET - CaloMET) < abs(recoil) |
| Hlt.QuotientBound | bucoffea/hlt/hltProcessor.py:101-102 | abs(d / r) < 0.5 exactly when 2 abs(d) < abs(r), for r != 0 |
| Hlt.MuonPtCut | bucoffea/hlt/hltProcessor.py:87 | `muon_pt>30` holds exactly when some muon is above 30 GeV |
| Hlt.CaloDiffCut | bucoffea/hlt/hltProcessor.py:101-102 | the registered `calo_diff` is the division-free balance condition |
| Hlt.Columns | bucoffea/hlt/hltProcessor.py:128 | the `trigger_turnon` column has one entry per event |
| Hlt.TurnonFilled | bucoffea/hlt/hltProcessor.py:109-128 | `trigger_turnon` of a region holds exactly the recoils of the passing events, one entry per passing event |
| Hlt.AddLeadingSelections | bucoffea/hlt/hltProcessor.py:50-81 | registers the eight masks from `lumi_mask` to `dimuon_mass` |
| Hlt.AddMuonSelections | bucoffea/hlt/hltProcessor.py:82-87 | registers `dimuon_charge`, `two_muons`, `one_muon` and `muon_pt>30` |
| Hlt.AddVetoSelections | bucoffea/hlt/hltProcessor.py:94-102 | registers `veto_ele`, `veto_pho`, `filt_met` and `calo_diff` |
| Hlt.HltProcessor.constructor | bucoffea/hlt/hltProcessor.py:13-14 | a new processor has no year yet |
| Hlt.HltProcessor.Configure | bucoffea/hlt/hltProcessor.py:20-33 | sets the year to `extract_year`'s answer; fails when it raises |
| Hlt.HltProcessor.Process | bucoffea/hlt/hltProcessor.py:35-132 | an empty batch gives the identity and keeps the year; an unresolvable year fails and keeps the year; otherwise the result fails exactly when a region names an unregistered cut, with the first such cut of such a region, or is the filled regions |
| RunQuick.Dispatch | jmecofftea/scripts/run_quick.py:34-43 | "hlt" reads `Events`; "jmenano" reads `JMETriggerNTuple/Events`; any other name is an error |
| RunQuick.RewritePath | jmecofftea/scripts/run_quick.py:48-50 | a `/store/` path gains the redirector prefix; any other path is kept |
| RunQuick.RewriteList | jmecofftea/scripts/run_quick.py:45-51 | the rewrite keeps the number and order of files: position i holds the rewrite of file i |
| RunQuick.RewrittenNotStore | jmecofftea/scripts/run_quick.py:48-50 | no rewritten path starts with `/store/`, and a `/store/` path gains the redirector prefix |
| RunQuick.RewriteIdempotent | jmecofftea/scripts/run_quick.py:45-51 | rewriting twice is rewriting once |
| RunQuick.RewriteFiles | jmecofftea/scripts/run_quick.py:46-50 | the inner loop builds exactly the rewritten list |
| RunQuick.RewriteFileset | jmecofftea/scripts/run_quick.py:45-51 | every dataset keeps its key and gets its rewritten list |
| RunQuick.Plan | jmecofftea/scripts/run_quick.py:31-56 | an unknown processor fails before anything else; otherwise "hlt" reads `Events` and "jmenano" `JMETriggerNTuple/Events`, the executor gets four workers with the `jmenano` flag set exactly for "jmenano", and every dataset gets its rewritten file list |
| RunQuick.ExecutorArgsFor | jmecofftea/scripts/run_quick.py:53-56 | four workers; the `jmenano` flag exactly for the jmenano processor |
| RunQuick.OutputName | jmecofftea/scripts/run_quick.py:70 | `<processor>_<dataset>.coffea` |
| RunQuick.CutflowName | jmecofftea/scripts/run_quick.py:73 | `<processor>_cutflow_<dataset>.txt` |
| RunQuick.OutputNamesDistinct | jmecofftea/scripts/run_quick.py:70-73 | for one processor, different datasets write different files, and an output file is never a cutflow file |

## Left out

- Selection.Registry.Add: requires a name that is not yet registered. The
  `PackedSelection` of the coffea version in use is not part of this model.
  `Add` requires a fresh name, and every processor is proved to
  register distinct names.
- `PackedSelection`'s bit packing and its 64-selection limit are left out.
  The most any processor here registers is 57.
- Histogram axes, binning and weights are left out. A histogram is modelled
  as the multiset of the values filled into it.
- Merging accumulators across chunks is coffea's and is left out.
- The dynaconf loading and reload in `_configure` is left out. The settings
  `_configure` reads become parameters (`lumiMasks`, `MuonConfig`).
- These external calls are not part of this model and become parameters or
  event fields:
  - `extract_year`
  - `setup_candidates` / `setup_candidates_for_jmenano`
  - `recoil`
  - `mask_and` over the MET filters
  - `hlt_regions` / `regions_for_jmenano`
  - the golden-JSON reader
  - the dimuon four-vector mass and pt
- Reals stand in for IEEE floats. For `calo_diff`, a zero recoil (an
  infinite or NaN ratio) fails the cut, as the float comparison would. The
  maximum of an event without muons is minus infinity, so such an event
  fails `muon_pt>30`; the model states that case as "there is a muon and".
- CustomNano.CustomNanoProcessor.Process: requires that every event
  carries the branches of every studied path. A missing branch is a
  `KeyError` from the input file, which is not modelled.
- JmeNano.JmeNanoProcessor.Process: requires that every event carries the
  branches of every studied path and of HLT_IsoMu27, for the same reason.
- The dataframe columns `year`, `is_tight_muon`, `recoil_pt`, `recoil_phi`
  and `dPFCaloCR` that `process` writes are intermediate values and are not
  modelled as state.
- From `run_quick.py`, these are I/O and are left out:
  - `parse_commandline`
  - the hard-coded fileset
  - the executor run with its chunk size
  - `save`
  - `print_cutflow`
  - the progress prints

  The file names they use are modelled by `OutputName` and `CutflowName`.
- Hist.FillRegions: regions are taken in an unspecified order, not the
  insertion order of the region dict. When several regions name
  unregistered cuts, the model does not say which region's cut is reported.
  Within that region, the reported cut is the first unregistered one. The
  same holds for the `Process` methods that call it.
- Hlt.HltProcessor.Process: the filled histogram is `trigger_turnon` only.
  The other `ezfill` calls are commented out in the source.
