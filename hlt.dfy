/** The HLT turn-on processor (bucoffea/hlt/hltProcessor.py): a fixed
    golden-JSON mask, leading-jet, trigger, muon-count, tight-muon, dimuon,
    veto, MET-filter and PF/Calo-balance selections; fills the recoil of the
    passing events into `trigger_turnon` per region. */
module Hlt {
  import opened Common
  import opened Lumi
  import opened Selection
  import opened Hist
  import opened Candidates

  datatype Jet = Jet(pt: real, eta: real, looseId: bool)

  /** A muon. `phi` and `mass` are the rest of its four-vector, which the
      pair mass in `dimuon_mass` is computed from. */
  datatype Muon = Muon(pt: real, eta: real, phi: real, mass: real, iso: real, charge: int)

  /** One event. `electrons` and `photons` are the candidate counts,
      `metFilters` the AND of the configured MET filter flags, `recoilPt`
      the recoil helper's value; the three trigger bits are the
      `HLT_PFMETNoMu120_PFMHTNoMu120_IDTight`, its `_FilterHF` variant and
      `HLT_IsoMu27` branches. */
  datatype HltEvent = HltEvent(
    id: EventId, jets: seq<Jet>, muons: seq<Muon>, electrons: nat, photons: nat,
    metPt: real, caloMetPt: real, recoilPt: real, metFilters: bool,
    metMhtTrig: bool, metMhtCleanTrig: bool, isoMu27: bool)

  /** The era's MUON.CUTS.TIGHT and SELECTION.CONTROL.DOUBLEMU.MASS settings. */
  datatype MuonConfig = MuonConfig(tightIso: real, tightPt: real, tightEta: real, massMin: real, massMax: real)

  function Ids(batch: seq<HltEvent>): seq<EventId>
  {
    seq(|batch|, i requires 0 <= i < |batch| => batch[i].id)
  }

  function JetPts(jets: seq<Jet>): (pts: seq<real>)
    ensures |pts| == |jets|
  {
    seq(|jets|, k requires 0 <= k < |jets| => jets[k].pt)
  }

  function MuonPts(muons: seq<Muon>): (pts: seq<real>)
    ensures |pts| == |muons|
  {
    seq(|muons|, k requires 0 <= k < |muons| => muons[k].pt)
  }

  /** leadak4_pt_eta: the highest jet pt is above 40 GeV and the leading jet
      has |eta| < 4.5; an event without jets fails. */
  predicate LeadJetPtEta(e: HltEvent)
  {
    |e.jets| > 0 && JetPts(e.jets)[ArgMax(JetPts(e.jets))] > 40.0 && Abs(e.jets[ArgMax(JetPts(e.jets))].eta) < 4.5
  }

  /** leadak4_id: the leading jet passes the loose ID. */
  predicate LeadJetId(e: HltEvent)
  {
    |e.jets| > 0 && e.jets[ArgMax(JetPts(e.jets))].looseId
  }

  predicate MetMhtTrig(e: HltEvent) { e.metMhtTrig }

  predicate MetMhtCleanTrig(e: HltEvent) { e.metMhtCleanTrig }

  predicate IsoMu27(e: HltEvent) { e.isoMu27 }

  /** The tight-muon definition. */
  predicate Tight(cfg: MuonConfig, m: Muon)
  {
    m.iso < cfg.tightIso && m.pt > cfg.tightPt && Abs(m.eta) < cfg.tightEta
  }

  /** `df['is_tight_muon']`: one flag per muon of the event. */
  function IsTightMuon(cfg: MuonConfig, muons: seq<Muon>): (flags: seq<bool>)
    ensures |flags| == |muons|
  {
    seq(|muons|, k requires 0 <= k < |muons| => Tight(cfg, muons[k]))
  }

  /** dimuon_mass: some pair of distinct muons has a mass strictly inside the window. */
  predicate DimuonMass(cfg: MuonConfig, mass: (Muon, Muon) -> real, e: HltEvent)
  {
    exists p :: p in Distincts(e.muons) && cfg.massMin < mass(p.0, p.1) < cfg.massMax
  }

  /** dimuon_charge: some pair of distinct muons has charges summing to 0. */
  predicate DimuonCharge(e: HltEvent)
  {
    exists p :: p in Distincts(e.muons) && p.0.charge + p.1.charge == 0
  }

  predicate TwoMuons(e: HltEvent) { |e.muons| == 2 }

  predicate OneMuon(e: HltEvent) { |e.muons| == 1 }

  /** `muons.pt.max() > 30`: the maximum of no muons is minus infinity, so
      an event without muons fails. */
  predicate MuonPt30(e: HltEvent)
  {
    |e.muons| > 0 && MuonPts(e.muons)[ArgMax(MuonPts(e.muons))] > 30.0
  }

  predicate VetoEle(e: HltEvent) { e.electrons == 0 }

  predicate VetoPho(e: HltEvent) { e.photons == 0 }

  predicate FiltMet(e: HltEvent) { e.metFilters }

  /** calo_diff: |(MET - CaloMET) / recoil| < 0.5. A zero recoil gives an
      infinite or undefined ratio, which fails the comparison. */
  predicate CaloDiff(e: HltEvent)
  {
    e.recoilPt != 0.0 && Abs((e.metPt - e.caloMetPt) / e.recoilPt) < 0.5
  }

  function TightMuMask(batch: seq<HltEvent>, cfg: MuonConfig): Mask
  {
    EventMask(batch, (e: HltEvent) => Any(IsTightMuon(cfg, e.muons)))
  }

  function DimuonMassMask(batch: seq<HltEvent>, cfg: MuonConfig, mass: (Muon, Muon) -> real): Mask
  {
    EventMask(batch, (e: HltEvent) => DimuonMass(cfg, mass, e))
  }

  /** Every selection process registers. */
  function Selections(batch: seq<HltEvent>, golden: GoldenList, cfg: MuonConfig, mass: (Muon, Muon) -> real): map<string, Mask>
  {
    MuonSelections(batch, golden, cfg, mass)
      ["veto_ele" := EventMask(batch, VetoEle)]
      ["veto_pho" := EventMask(batch, VetoPho)]
      ["filt_met" := EventMask(batch, FiltMet)]
      ["calo_diff" := EventMask(batch, CaloDiff)]
  }

  /** The registrations up to the muon pT threshold. */
  function MuonSelections(batch: seq<HltEvent>, golden: GoldenList, cfg: MuonConfig, mass: (Muon, Muon) -> real): map<string, Mask>
  {
    LeadingSelections(batch, golden, cfg, mass)
      ["dimuon_charge" := EventMask(batch, DimuonCharge)]
      ["two_muons" := EventMask(batch, TwoMuons)]
      ["one_muon" := EventMask(batch, OneMuon)]
      ["muon_pt>30" := EventMask(batch, MuonPt30)]
  }

  /** The registrations up to the dimuon mass window. */
  function LeadingSelections(batch: seq<HltEvent>, golden: GoldenList, cfg: MuonConfig, mass: (Muon, Muon) -> real): map<string, Mask>
  {
    map[]
      ["lumi_mask" := GoldenMask(golden, Ids(batch))]
      ["leadak4_pt_eta" := EventMask(batch, LeadJetPtEta)]
      ["leadak4_id" := EventMask(batch, LeadJetId)]
      ["mftmht_trig" := EventMask(batch, MetMhtTrig)]
      ["mftmht_clean_trig" := EventMask(batch, MetMhtCleanTrig)]
      ["HLT_IsoMu27" := EventMask(batch, IsoMu27)]
      ["at_least_one_tight_mu" := TightMuMask(batch, cfg)]
      ["dimuon_mass" := DimuonMassMask(batch, cfg, mass)]
  }

  /** `lumi_mask` is always the fixed golden list's verdict: there is no
      year that lets every event through. */
  lemma LumiMaskFixed(batch: seq<HltEvent>, golden: GoldenList, cfg: MuonConfig, mass: (Muon, Muon) -> real, i: nat)
    requires i < |batch|
    ensures Selections(batch, golden, cfg, mass)["lumi_mask"][i] <==> Certified(golden, batch[i].id)
  {
  }

  /** `one_muon` and `two_muons` never hold together. */
  lemma {:induction false} OneAndTwoMuonsExclusive(batch: seq<HltEvent>, golden: GoldenList, cfg: MuonConfig, mass: (Muon, Muon) -> real, i: nat)
    requires i < |batch|
    ensures !(Selections(batch, golden, cfg, mass)["one_muon"][i] && Selections(batch, golden, cfg, mass)["two_muons"][i])
  {
    var sels := Selections(batch, golden, cfg, mass);
    assert sels["one_muon"][i] <==> |batch[i].muons| == 1;
    assert sels["two_muons"][i] <==> |batch[i].muons| == 2;
  }

  /** The vetoes hold exactly for events with no electron, no photon. */
  lemma Vetoes(batch: seq<HltEvent>, golden: GoldenList, cfg: MuonConfig, mass: (Muon, Muon) -> real, i: nat)
    requires i < |batch|
    ensures Selections(batch, golden, cfg, mass)["veto_ele"][i] <==> batch[i].electrons == 0
    ensures Selections(batch, golden, cfg, mass)["veto_pho"][i] <==> batch[i].photons == 0
  {
  }

  /** A pair of distinct muons with charges summing to 0, by position. */
  lemma DimuonChargeExists(e: HltEvent)
    ensures DimuonCharge(e) <==> exists a, b :: 0 <= a < b < |e.muons| && e.muons[a].charge + e.muons[b].charge == 0
  {
    DistinctsSome(e.muons, (a: Muon, b: Muon) => a.charge + b.charge == 0);
  }

  /** `dimuon_charge` holds exactly when two distinct muons have charges
      summing to 0, so never with fewer than two muons. */
  lemma {:induction false} DimuonChargeCut(batch: seq<HltEvent>, golden: GoldenList, cfg: MuonConfig, mass: (Muon, Muon) -> real, i: nat)
    requires i < |batch|
    ensures Selections(batch, golden, cfg, mass)["dimuon_charge"][i] <==>
            exists a, b :: 0 <= a < b < |batch[i].muons| && batch[i].muons[a].charge + batch[i].muons[b].charge == 0
    ensures |batch[i].muons| < 2 ==> !Selections(batch, golden, cfg, mass)["dimuon_charge"][i]
  {
    assert Selections(batch, golden, cfg, mass)["dimuon_charge"][i] <==> DimuonCharge(batch[i]);
    DimuonChargeExists(batch[i]);
  }

  /** A pair of distinct muons with a mass inside the window, by position. */
  lemma DimuonMassExists(cfg: MuonConfig, mass: (Muon, Muon) -> real, e: HltEvent)
    ensures DimuonMass(cfg, mass, e) <==> exists a, b :: 0 <= a < b < |e.muons| && cfg.massMin < mass(e.muons[a], e.muons[b]) < cfg.massMax
  {
    DistinctsSome(e.muons, (a: Muon, b: Muon) => cfg.massMin < mass(a, b) < cfg.massMax);
  }

  /** `dimuon_mass` holds exactly when two distinct muons have a mass
      strictly inside the configured window. */
  lemma {:induction false} DimuonMassCut(batch: seq<HltEvent>, golden: GoldenList, cfg: MuonConfig, mass: (Muon, Muon) -> real, i: nat)
    requires i < |batch|
    ensures Selections(batch, golden, cfg, mass)["dimuon_mass"][i] <==>
            exists a, b :: 0 <= a < b < |batch[i].muons| && cfg.massMin < mass(batch[i].muons[a], batch[i].muons[b]) < cfg.massMax
  {
    assert Selections(batch, golden, cfg, mass)["dimuon_mass"][i] <==> DimuonMass(cfg, mass, batch[i]);
    DimuonMassExists(cfg, mass, batch[i]);
  }

  /** `at_least_one_tight_mu` holds exactly when some muon passes the tight
      isolation, pt and |eta| cuts. */
  lemma {:induction false} TightMuonCut(batch: seq<HltEvent>, golden: GoldenList, cfg: MuonConfig, mass: (Muon, Muon) -> real, i: nat)
    requires i < |batch|
    ensures Selections(batch, golden, cfg, mass)["at_least_one_tight_mu"][i] <==>
            exists k :: 0 <= k < |batch[i].muons| && batch[i].muons[k].iso < cfg.tightIso &&
                        batch[i].muons[k].pt > cfg.tightPt && Abs(batch[i].muons[k].eta) < cfg.tightEta
  {
    var flags := IsTightMuon(cfg, batch[i].muons);
    assert Selections(batch, golden, cfg, mass)["at_least_one_tight_mu"][i] <==> Any(flags);
    AnyExists(flags);
    assert forall k :: 0 <= k < |flags| ==> (flags[k] <==> Tight(cfg, batch[i].muons[k]));
  }

  /** The maximum muon pt is above 30 GeV exactly when some muon is. */
  lemma {:induction false} MuonPt30Exists(e: HltEvent)
    ensures MuonPt30(e) <==> exists k :: 0 <= k < |e.muons| && e.muons[k].pt > 30.0
  {
    var m := e.muons;
    if |m| > 0 {
      var k := ArgMax(MuonPts(m));
      assert MuonPts(m)[k] == m[k].pt;
      if exists j :: 0 <= j < |m| && m[j].pt > 30.0 {
        var j :| 0 <= j < |m| && m[j].pt > 30.0;
        assert MuonPts(m)[j] == m[j].pt;
      }
    }
  }

  /** The leading-jet cuts: some jet is above 40 GeV and the highest-pt
      one (the first of them on a tie) has |eta| < 4.5 and passes the loose
      ID; an event without jets fails both. */
  lemma {:induction false} LeadJetCuts(batch: seq<HltEvent>, golden: GoldenList, cfg: MuonConfig, mass: (Muon, Muon) -> real, i: nat)
    requires i < |batch|
    ensures var jets := batch[i].jets;
            Selections(batch, golden, cfg, mass)["leadak4_pt_eta"][i] <==>
              (exists k :: 0 <= k < |jets| && jets[k].pt > 40.0) && Abs(jets[ArgMax(JetPts(jets))].eta) < 4.5
    ensures var jets := batch[i].jets;
            Selections(batch, golden, cfg, mass)["leadak4_id"][i] <==> |jets| > 0 && jets[ArgMax(JetPts(jets))].looseId
  {
    var jets := batch[i].jets;
    assert Selections(batch, golden, cfg, mass)["leadak4_pt_eta"][i] <==> LeadJetPtEta(batch[i]);
    assert Selections(batch, golden, cfg, mass)["leadak4_id"][i] <==> LeadJetId(batch[i]);
    if |jets| > 0 {
      var k := ArgMax(JetPts(jets));
      assert JetPts(jets)[k] == jets[k].pt;
      if exists j :: 0 <= j < |jets| && jets[j].pt > 40.0 {
        var j :| 0 <= j < |jets| && jets[j].pt > 40.0;
        assert JetPts(jets)[j] == jets[j].pt;
      }
    }
  }

  /** The PF/Calo balance without the division. */
  lemma CaloDiffBalance(e: HltEvent)
    ensures CaloDiff(e) <==> e.recoilPt != 0.0 && 2.0 * Abs(e.metPt - e.caloMetPt) < Abs(e.recoilPt)
  {
    if e.recoilPt != 0.0 {
      var d, r := e.metPt - e.caloMetPt, e.recoilPt;
      var q := d / r;
      assert CaloDiff(e) <==> Abs(q) < 0.5;
      QuotientBound(d, r);
    }
  }

  /** |d / r| < 0.5 exactly when 2|d| < |r|, for a non-zero r. */
  lemma QuotientBound(d: real, r: real)
    requires r != 0.0
    ensures Abs(d / r) < 0.5 <==> 2.0 * Abs(d) < Abs(r)
  {
    var q := d / r;
    assert q * r == d;
    AbsProduct(q, r);
    ScaleByPositive(Abs(q), 0.5, Abs(r));
  }

  lemma AbsProduct(x: real, y: real)
    ensures Abs(x) * Abs(y) == Abs(x * y)
  {
    if x < 0.0 && y >= 0.0 {
      assert x * y <= 0.0;
    } else if x >= 0.0 && y < 0.0 {
      assert x * y <= 0.0;
    } else if x < 0.0 && y < 0.0 {
      assert x * y > 0.0;
    } else {
      assert x * y >= 0.0;
    }
  }

  /** `muon_pt>30` holds exactly when some muon is above 30 GeV. */
  lemma {:induction false} MuonPtCut(batch: seq<HltEvent>, golden: GoldenList, cfg: MuonConfig, mass: (Muon, Muon) -> real, i: nat)
    requires i < |batch|
    ensures Selections(batch, golden, cfg, mass)["muon_pt>30"][i] <==> exists k :: 0 <= k < |batch[i].muons| && batch[i].muons[k].pt > 30.0
  {
    assert Selections(batch, golden, cfg, mass)["muon_pt>30"][i] <==> MuonPt30(batch[i]);
    MuonPt30Exists(batch[i]);
  }

  /** `calo_diff` without the division: PF and Calo MET differ by less than
      half the recoil, which must not be zero. */
  lemma CaloDiffCut(batch: seq<HltEvent>, golden: GoldenList, cfg: MuonConfig, mass: (Muon, Muon) -> real, i: nat)
    requires i < |batch|
    ensures Selections(batch, golden, cfg, mass)["calo_diff"][i] <==>
            batch[i].recoilPt != 0.0 && 2.0 * Abs(batch[i].metPt - batch[i].caloMetPt) < Abs(batch[i].recoilPt)
  {
    assert Selections(batch, golden, cfg, mass)["calo_diff"][i] <==> CaloDiff(batch[i]);
    CaloDiffBalance(batch[i]);
  }

  lemma ScaleByPositive(a: real, b: real, c: real)
    requires c > 0.0
    ensures a < b <==> a * c < b * c
  {
    if a < b {
      assert (b - a) * c > 0.0;
    }
    if a * c < b * c {
      assert (b - a) * c > 0.0;
    }
  }

  /** The histogram process fills: the recoil of every event. */
  function Columns(batch: seq<HltEvent>): (columns: map<string, Column>)
    ensures ColumnsAligned(columns, |batch|)
  {
    map["trigger_turnon" := Scalar(Recoils(batch))]
  }

  function Recoils(batch: seq<HltEvent>): (v: seq<real>)
    ensures |v| == |batch|
  {
    seq(|batch|, i requires 0 <= i < |batch| => batch[i].recoilPt)
  }

  /** `trigger_turnon` of a region receives exactly the recoil values of the
      events passing the region, one entry per passing event. */
  lemma TurnonFilled(batch: seq<HltEvent>, golden: GoldenList, cfg: MuonConfig, mass: (Muon, Muon) -> real,
                     regions: map<string, seq<string>>, dataset: string, region: string, x: real)
    requires CutsDefined(regions, Selections(batch, golden, cfg, mass)) && region in regions
    ensures var filled := Contents(Filled(regions, Selections(batch, golden, cfg, mass), |batch|, dataset, Columns(batch)),
                                   HistKey("trigger_turnon", region, dataset));
            var mask := RegionMask(Selections(batch, golden, cfg, mass), regions[region], |batch|);
            (x in filled <==> exists i :: 0 <= i < |batch| && mask[i] && batch[i].recoilPt == x) &&
            |filled| == TrueCount(mask)
  {
    var sels := Selections(batch, golden, cfg, mass);
    var mask := RegionMask(sels, regions[region], |batch|);
    FilledContents(regions, sels, |batch|, dataset, Columns(batch), HistKey("trigger_turnon", region, dataset));
    SelectedScalarMembership(Recoils(batch), mask, x);
    SelectedScalarCount(Recoils(batch), mask);
  }

  /** The registrations of process up to the dimuon mass window, in order. */
  method AddLeadingSelections(sel: Registry, batch: seq<HltEvent>, golden: GoldenList, cfg: MuonConfig, mass: (Muon, Muon) -> real)
    requires sel.Valid() && sel.size == |batch| && sel.masks == map[]
    modifies sel
    ensures sel.Valid() && sel.masks == LeadingSelections(batch, golden, cfg, mass)
  {
    sel.Add("lumi_mask", GoldenMask(golden, Ids(batch)));
    sel.Add("leadak4_pt_eta", EventMask(batch, LeadJetPtEta));
    sel.Add("leadak4_id", EventMask(batch, LeadJetId));
    sel.Add("mftmht_trig", EventMask(batch, MetMhtTrig));
    sel.Add("mftmht_clean_trig", EventMask(batch, MetMhtCleanTrig));
    sel.Add("HLT_IsoMu27", EventMask(batch, IsoMu27));
    sel.Add("at_least_one_tight_mu", TightMuMask(batch, cfg));
    sel.Add("dimuon_mass", DimuonMassMask(batch, cfg, mass));
  }

  /** The muon-count and muon pT registrations of process, in order. */
  method AddMuonSelections(sel: Registry, batch: seq<HltEvent>, golden: GoldenList, cfg: MuonConfig, mass: (Muon, Muon) -> real)
    requires sel.Valid() && sel.size == |batch| && sel.masks == LeadingSelections(batch, golden, cfg, mass)
    modifies sel
    ensures sel.Valid() && sel.masks == MuonSelections(batch, golden, cfg, mass)
  {
    sel.Add("dimuon_charge", EventMask(batch, DimuonCharge));
    sel.Add("two_muons", EventMask(batch, TwoMuons));
    sel.Add("one_muon", EventMask(batch, OneMuon));
    sel.Add("muon_pt>30", EventMask(batch, MuonPt30));
  }

  /** The veto, MET filter and calo-balance registrations of process, in
      order. */
  method AddVetoSelections(sel: Registry, batch: seq<HltEvent>, golden: GoldenList, cfg: MuonConfig, mass: (Muon, Muon) -> real)
    requires sel.Valid() && sel.size == |batch| && sel.masks == MuonSelections(batch, golden, cfg, mass)
    modifies sel
    ensures sel.Valid() && sel.masks == Selections(batch, golden, cfg, mass)
  {
    sel.Add("veto_ele", EventMask(batch, VetoEle));
    sel.Add("veto_pho", EventMask(batch, VetoPho));
    sel.Add("filt_met", EventMask(batch, FiltMet));
    sel.Add("calo_diff", EventMask(batch, CaloDiff));
  }

  class HltProcessor {
    /** self._year: set by _configure once the dataset's year is known. */
    var year: Option<int>

    constructor ()
      ensures year == None
    {
      year := None;
    }

    /** _configure: resolves the dataset's year; extract_year's failure is
        not caught. */
    method Configure(extracted: Option<int>) returns (r: Result<int>)
      modifies this
      ensures extracted.None? ==> r == Err(UnresolvableYear) && year == old(year)
      ensures extracted.Some? ==> r == Ok(extracted.value) && year == extracted
    {
      if extracted.None? {
        return Err(UnresolvableYear);
      }
      year := extracted;
      r := Ok(extracted.value);
    }

    /** process: an empty batch gives the accumulator's identity; otherwise
        the year must resolve, the selections are registered and every region
        of `regions` (hlt_regions's table) fills `trigger_turnon`.
        `extracted` is what extract_year gives for the dataset (None when it
        raises), `golden` the 2022 golden list, `cfg` and `mass` the era's
        muon settings and the dimuon mass. */
    method Process(batch: seq<HltEvent>, dataset: string, extracted: Option<int>, golden: GoldenList,
                   cfg: MuonConfig, mass: (Muon, Muon) -> real, regions: map<string, seq<string>>)
      returns (r: Result<Accumulator>)
      modifies this
      ensures |batch| == 0 ==> r == Ok(Identity()) && year == old(year)
      ensures |batch| > 0 && extracted.None? ==> r == Err(UnresolvableYear) && year == old(year)
      ensures |batch| > 0 && extracted.Some? ==>
                var sels := Selections(batch, golden, cfg, mass);
                year == extracted &&
                (r.Err? <==> !CutsDefined(regions, sels)) &&
                (r.Err? ==> r.failure.UndefinedSelection? &&
                             exists region :: region in regions && FirstUndefined(sels, regions[region], r.failure.name)) &&
                (r.Ok? ==> r.value == Filled(regions, sels, |batch|, dataset, Columns(batch)))
    {
      if |batch| == 0 {
        return Ok(Identity());
      }
      var configured := Configure(extracted);
      if configured.Err? {
        return Err(configured.failure);
      }
      var sel := new Registry(|batch|);
      AddLeadingSelections(sel, batch, golden, cfg, mass);
      AddMuonSelections(sel, batch, golden, cfg, mass);
      AddVetoSelections(sel, batch, golden, cfg, mass);
      r := FillRegions(regions, sel, dataset, Columns(batch));
    }
  }
}
