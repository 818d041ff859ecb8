/** The JME-trigger-ntuple processor (jmecofftea/jmenano/jmeNanoProcessor.py):
    an inclusive and a golden-JSON selection, a Z to mumu selection on the two
    leading muons, a barrel cut on the leading jet and two bits per trigger;
    fills the leading-jet kinematics and the dimuon pt per region. */
module JmeNano {
  import opened Common
  import opened Lumi
  import opened Selection
  import opened Hist
  import opened Candidates

  datatype Jet = Jet(pt: real, eta: real, phi: real, mass: real)

  datatype Muon = Muon(pt: real, eta: real, phi: real, mass: real, pdgId: int)

  /** The two branches an event carries for one HLT path. */
  datatype PathBits = PathBits(accept: bool, prescaled: bool)

  /** One event of the ntuple; `paths` holds `{trigger}_HLTPathAccept` and
      `{trigger}_HLTPathPrescaled` by trigger. */
  datatype JmeEvent = JmeEvent(id: EventId, jets: seq<Jet>, muons: seq<Muon>, paths: map<string, PathBits>)

  /** The dimuon four-vector sum's mass and pt, which the kinematics library computes. */
  datatype PairKinematics = PairKinematics(mass: (Muon, Muon) -> real, pt: (Muon, Muon) -> real)

  /** The bit each of a trigger's two registered masks reads. */
  datatype Flag = Accepted | WasRun

  /** The single-jet and forward single-jet paths under study. */
  const Triggers: seq<string> := ["HLT_PFJet60", "HLT_PFJet140", "HLT_PFJet320", "HLT_PFJetFwd60", "HLT_PFJetFwd140", "HLT_PFJetFwd320"]

  /** The reference single-muon path. */
  const Reference: string := "HLT_IsoMu27"

  function Suffix(f: Flag): string
  {
    match f
    case Accepted => "_accepted"
    case WasRun => "_wasrun"
  }

  /** _configure's year: extract_year's, or -1 when it fails. */
  function YearOrSentinel(extracted: Option<int>): int
  {
    if extracted.Some? then extracted.value else -1
  }

  /** Every event carries the branches of the path. */
  predicate HasPath(batch: seq<JmeEvent>, t: string)
  {
    forall i :: 0 <= i < |batch| ==> t in batch[i].paths
  }

  predicate HasPaths(batch: seq<JmeEvent>, triggers: seq<string>)
  {
    forall t :: t in triggers ==> HasPath(batch, t)
  }

  lemma HasPathsPrefix(batch: seq<JmeEvent>, triggers: seq<string>, k: nat)
    requires HasPaths(batch, triggers) && k <= |triggers|
    ensures HasPaths(batch, triggers[..k])
  {
    assert forall t :: t in triggers[..k] ==> t in triggers;
  }

  function Ids(batch: seq<JmeEvent>): seq<EventId>
  {
    seq(|batch|, i requires 0 <= i < |batch| => batch[i].id)
  }

  /** The pairs `muons[:, :2].distincts()` forms: the two leading muons, if there are two. */
  function Dimuons(muons: seq<Muon>): seq<(Muon, Muon)>
  {
    Distincts(LeadingTwo(muons))
  }

  /** opp_sign: some dimuon has pdgIds of opposite sign. */
  predicate OppSign(e: JmeEvent)
  {
    exists p :: p in Dimuons(e.muons) && p.0.pdgId * p.1.pdgId < 0
  }

  /** two_muons: there is a dimuon. */
  predicate TwoMuons(e: JmeEvent)
  {
    |Dimuons(e.muons)| > 0
  }

  /** central_muons: some dimuon has both muons within |eta| < 2.3. */
  predicate CentralMuons(e: JmeEvent)
  {
    exists p :: p in Dimuons(e.muons) && Abs(p.0.eta) < 2.3 && Abs(p.1.eta) < 2.3
  }

  /** muon_pt: some dimuon has both muons above 20 GeV. */
  predicate MuonPt(e: JmeEvent)
  {
    exists p :: p in Dimuons(e.muons) && p.0.pt > 20.0 && p.1.pt > 20.0
  }

  /** dimuon_mass: some dimuon's mass lies strictly between 70 and 110 GeV. */
  predicate DimuonMass(kin: PairKinematics, e: JmeEvent)
  {
    exists p :: p in Dimuons(e.muons) && 70.0 < kin.mass(p.0, p.1) < 110.0
  }

  /** dimuon_pt: some dimuon's pt is above 15 GeV. */
  predicate DimuonPt(kin: PairKinematics, e: JmeEvent)
  {
    exists p :: p in Dimuons(e.muons) && kin.pt(p.0, p.1) > 15.0
  }

  function JetPts(jets: seq<Jet>): (pts: seq<real>)
    ensures |pts| == |jets|
  {
    seq(|jets|, k requires 0 <= k < |jets| => jets[k].pt)
  }

  /** `ak4[ak4.pt.argmax()]`: the leading jet, or nothing in an event without jets. */
  function LeadingJet(jets: seq<Jet>): (lead: seq<Jet>)
    ensures |jets| == 0 ==> lead == []
    ensures |jets| > 0 ==> |lead| == 1 && lead[0] in jets && forall j :: j in jets ==> j.pt <= lead[0].pt
    ensures |jets| > 0 ==> exists k :: 0 <= k < |jets| && lead[0] == jets[k] &&
                                     forall j :: 0 <= j < k ==> jets[j].pt < jets[k].pt
  {
    if |jets| == 0 then [] else
      var k := ArgMax(JetPts(jets));
      assert forall m :: 0 <= m < |jets| ==> jets[m].pt == JetPts(jets)[m];
      [jets[k]]
  }

  /** lead_ak4_in_barrel: the leading jet lies within |eta| < 1.3. */
  predicate LeadJetInBarrel(e: JmeEvent)
  {
    exists j :: j in LeadingJet(e.jets) && Abs(j.eta) < 1.3
  }

  function InclusiveMask(batch: seq<JmeEvent>): Mask
  {
    EventMask(batch, (e: JmeEvent) => true)
  }

  function DimuonMassMask(batch: seq<JmeEvent>, kin: PairKinematics): Mask
  {
    EventMask(batch, (e: JmeEvent) => DimuonMass(kin, e))
  }

  function DimuonPtMask(batch: seq<JmeEvent>, kin: PairKinematics): Mask
  {
    EventMask(batch, (e: JmeEvent) => DimuonPt(kin, e))
  }

  /** The masks registered before the trigger loop. */
  function BaseSelections(batch: seq<JmeEvent>, lumiMask: Mask, kin: PairKinematics): map<string, Mask>
  {
    LumiAndMuonSelections(batch, lumiMask)
      ["central_muons" := EventMask(batch, CentralMuons)]
      ["muon_pt" := EventMask(batch, MuonPt)]
      ["dimuon_mass" := DimuonMassMask(batch, kin)]
      ["dimuon_pt" := DimuonPtMask(batch, kin)]
      ["lead_ak4_in_barrel" := EventMask(batch, LeadJetInBarrel)]
  }

  /** The first four registrations: everything, the lumi mask, opposite
      charges and the muon count. */
  function LumiAndMuonSelections(batch: seq<JmeEvent>, lumiMask: Mask): map<string, Mask>
  {
    map[]
      ["inclusive" := InclusiveMask(batch)]
      ["lumi_mask" := lumiMask]
      ["opp_sign" := EventMask(batch, OppSign)]
      ["two_muons" := EventMask(batch, TwoMuons)]
  }

  /** The bit a registered trigger mask reads: the accept bit as it is, the
      prescale bit negated. */
  function FlagOf(bits: PathBits, f: Flag): bool
  {
    match f
    case Accepted => bits.accept
    case WasRun => !bits.prescaled
  }

  function FlagMask(batch: seq<JmeEvent>, t: string, f: Flag): (m: Mask)
    requires HasPath(batch, t)
    ensures |m| == |batch|
  {
    seq(|batch|, i requires 0 <= i < |batch| => FlagOf(batch[i].paths[t], f))
  }

  /** The masks the trigger loop registers on top of `base`, trigger by trigger. */
  function TriggerSelections(base: map<string, Mask>, batch: seq<JmeEvent>, triggers: seq<string>): map<string, Mask>
    requires HasPaths(batch, triggers)
  {
    if triggers == [] then base
    else
      var t := triggers[|triggers| - 1];
      HasPathsPrefix(batch, triggers, |triggers| - 1);
      TriggerSelections(base, batch, triggers[..|triggers| - 1])
        [t + Suffix(Accepted) := FlagMask(batch, t, Accepted)]
        [t + Suffix(WasRun) := FlagMask(batch, t, WasRun)]
  }

  function TriggerNames(triggers: seq<string>): set<string>
  {
    set t, f: Flag | t in triggers :: t + Suffix(f)
  }

  /** A registered trigger name determines its trigger and its bit. */
  lemma {:induction false} TriggerNameInjective(t1: string, f1: Flag, t2: string, f2: Flag)
    requires t1 + Suffix(f1) == t2 + Suffix(f2)
    ensures t1 == t2 && f1 == f2
  {
    var w := t1 + Suffix(f1);
    var s1, s2 := Suffix(f1), Suffix(f2);
    assert w[|w| - 1] == s1[|s1| - 1];
    assert w[|w| - 1] == s2[|s2| - 1];
    assert f1 == f2;
    assert t1 == w[..|t1|];
    assert t2 == w[..|t2|];
  }

  lemma {:induction false} TriggerSelectionsKeys(base: map<string, Mask>, batch: seq<JmeEvent>, triggers: seq<string>)
    requires HasPaths(batch, triggers)
    ensures TriggerSelections(base, batch, triggers).Keys == base.Keys + TriggerNames(triggers)
  {
    if triggers != [] {
      var t, rest := triggers[|triggers| - 1], triggers[..|triggers| - 1];
      HasPathsPrefix(batch, triggers, |triggers| - 1);
      TriggerSelectionsKeys(base, batch, rest);
      assert triggers == rest + [t];
      assert TriggerNames(triggers) == TriggerNames(rest) + {t + Suffix(Accepted), t + Suffix(WasRun)} by {
        forall n | n in TriggerNames(triggers)
          ensures n in TriggerNames(rest) + {t + Suffix(Accepted), t + Suffix(WasRun)}
        {
          var u, f: Flag :| u in triggers && n == u + Suffix(f);
          if u != t {
            assert u in rest;
          }
        }
        forall n | n in TriggerNames(rest)
          ensures n in TriggerNames(triggers)
        {
          var u, f: Flag :| u in rest && n == u + Suffix(f);
          assert u in triggers;
        }
        assert t in triggers;
        var fa, fw := Accepted, WasRun;
        assert t + Suffix(fa) in TriggerNames(triggers);
        assert t + Suffix(fw) in TriggerNames(triggers);
      }
    }
  }

  /** Whatever came before, a listed trigger's masks are its accept bit and
      its negated prescale bit. */
  lemma {:induction false} TriggerSelectionsAt(base: map<string, Mask>, batch: seq<JmeEvent>, triggers: seq<string>, t: string, f: Flag)
    requires HasPaths(batch, triggers) && t in triggers
    ensures t + Suffix(f) in TriggerSelections(base, batch, triggers)
    ensures TriggerSelections(base, batch, triggers)[t + Suffix(f)] == FlagMask(batch, t, f)
  {
    var u, rest := triggers[|triggers| - 1], triggers[..|triggers| - 1];
    HasPathsPrefix(batch, triggers, |triggers| - 1);
    if u != t {
      assert t in rest by {
        assert triggers == rest + [u];
      }
      TriggerSelectionsAt(base, batch, rest, t, f);
      forall g: Flag
        ensures u + Suffix(g) != t + Suffix(f)
      {
        if u + Suffix(g) == t + Suffix(f) {
          TriggerNameInjective(u, g, t, f);
        }
      }
    } else if f == Accepted {
      assert |u + Suffix(WasRun)| != |t + Suffix(f)|;
    }
  }

  /** A name that is not a trigger's keeps the mask `base` gave it. */
  lemma {:induction false} TriggerSelectionsKeepBase(base: map<string, Mask>, batch: seq<JmeEvent>, triggers: seq<string>, name: string)
    requires HasPaths(batch, triggers) && name in base
    requires forall t, f: Flag :: name != t + Suffix(f)
    ensures name in TriggerSelections(base, batch, triggers)
    ensures TriggerSelections(base, batch, triggers)[name] == base[name]
  {
    if triggers != [] {
      HasPathsPrefix(batch, triggers, |triggers| - 1);
      TriggerSelectionsKeepBase(base, batch, triggers[..|triggers| - 1], name);
    }
  }

  /** The names registered outside the trigger loop. */
  const OtherNames: set<string> := {"inclusive", "lumi_mask", "opp_sign", "two_muons", "central_muons", "muon_pt",
                                    "dimuon_mass", "dimuon_pt", "lead_ak4_in_barrel", Reference}

  /** No name registered outside the trigger loop has the shape of a
      trigger's `_accepted` or `_wasrun` name. */
  lemma OtherNameNotTriggerName(name: string, t: string, f: Flag)
    requires name in OtherNames
    ensures name != t + Suffix(f)
  {
    var w := t + Suffix(f);
    assert w[|w| - 1] == Suffix(f)[|Suffix(f)| - 1];
    assert w[|w| - 2] == Suffix(f)[|Suffix(f)| - 2];
  }

  lemma {:induction false} TriggerSelectionsAligned(base: map<string, Mask>, batch: seq<JmeEvent>, triggers: seq<string>)
    requires HasPaths(batch, triggers) && Aligned(base, |batch|)
    ensures Aligned(TriggerSelections(base, batch, triggers), |batch|)
  {
    if triggers != [] {
      HasPathsPrefix(batch, triggers, |triggers| - 1);
      TriggerSelectionsAligned(base, batch, triggers[..|triggers| - 1]);
    }
  }

  /** Every registered selection once process has added them all: one entry
      per event each, under the names outside the loop and two per trigger. */
  function Selections(batch: seq<JmeEvent>, lumiMask: Mask, kin: PairKinematics): (sels: map<string, Mask>)
    requires HasPaths(batch, Triggers) && HasPath(batch, Reference) && |lumiMask| == |batch|
    ensures Aligned(sels, |batch|)
    ensures forall n :: n in OtherNames ==> n in sels
    ensures forall t, f: Flag :: t in Triggers ==> t + Suffix(f) in sels
    ensures Reference + Suffix(WasRun) in sels
  {
    var base := BaseSelections(batch, lumiMask, kin);
    TriggerSelectionsAligned(base, batch, Triggers);
    TriggerSelectionsKeys(base, batch, Triggers);
    TriggerSelections(base, batch, Triggers)
      [Reference := FlagMask(batch, Reference, Accepted)]
      [Reference + Suffix(WasRun) := FlagMask(batch, Reference, WasRun)]
  }

  /** A mask registered before the trigger loop is still the one registered. */
  lemma SelectionsKeepBase(batch: seq<JmeEvent>, lumiMask: Mask, kin: PairKinematics, name: string)
    requires HasPaths(batch, Triggers) && HasPath(batch, Reference) && |lumiMask| == |batch|
    requires name in BaseSelections(batch, lumiMask, kin)
    ensures name in Selections(batch, lumiMask, kin)
    ensures Selections(batch, lumiMask, kin)[name] == BaseSelections(batch, lumiMask, kin)[name]
  {
    forall t, f: Flag
      ensures name != t + Suffix(f)
    {
      OtherNameNotTriggerName(name, t, f);
    }
    TriggerSelectionsKeepBase(BaseSelections(batch, lumiMask, kin), batch, Triggers, name);
    assert name != Reference + Suffix(WasRun);
  }

  /** `inclusive` passes every event. */
  lemma InclusivePassesAll(batch: seq<JmeEvent>, lumiMask: Mask, kin: PairKinematics, i: nat)
    requires HasPaths(batch, Triggers) && HasPath(batch, Reference) && |lumiMask| == |batch| && i < |batch|
    ensures Selections(batch, lumiMask, kin)["inclusive"][i]
  {
    SelectionsKeepBase(batch, lumiMask, kin, "inclusive");
  }

  /** `lumi_mask` is the year's golden list; with no list for the year
      (the sentinel -1 included, unless it is configured) it equals `inclusive`. */
  lemma LumiMaskFailsOpen(batch: seq<JmeEvent>, lumiMasks: map<int, GoldenList>, year: int, kin: PairKinematics)
    requires HasPaths(batch, Triggers) && HasPath(batch, Reference)
    ensures year !in lumiMasks ==>
              Selections(batch, YearLumiMask(lumiMasks, year, Ids(batch)), kin)["lumi_mask"] ==
              Selections(batch, YearLumiMask(lumiMasks, year, Ids(batch)), kin)["inclusive"]
    ensures year in lumiMasks ==>
              forall i :: 0 <= i < |batch| ==>
                (Selections(batch, YearLumiMask(lumiMasks, year, Ids(batch)), kin)["lumi_mask"][i] <==>
                 Certified(lumiMasks[year], batch[i].id))
  {
    var lumiMask := YearLumiMask(lumiMasks, year, Ids(batch));
    SelectionsKeepBase(batch, lumiMask, kin, "inclusive");
    SelectionsKeepBase(batch, lumiMask, kin, "lumi_mask");
  }

  /** The dimuon cuts look at the two leading muons only: each holds exactly
      when the event has two muons and the first two pass it. */
  lemma DimuonPredicates(kin: PairKinematics, e: JmeEvent)
    ensures var m := e.muons;
            (TwoMuons(e) <==> |m| >= 2) &&
            (OppSign(e) <==> |m| >= 2 && m[0].pdgId * m[1].pdgId < 0) &&
            (CentralMuons(e) <==> |m| >= 2 && Abs(m[0].eta) < 2.3 && Abs(m[1].eta) < 2.3) &&
            (MuonPt(e) <==> |m| >= 2 && m[0].pt > 20.0 && m[1].pt > 20.0) &&
            (DimuonMass(kin, e) <==> |m| >= 2 && 70.0 < kin.mass(m[0], m[1]) < 110.0) &&
            (DimuonPt(kin, e) <==> |m| >= 2 && kin.pt(m[0], m[1]) > 15.0)
  {
    DistinctsOfLeadingTwo(e.muons);
  }

  /** The registered dimuon masks are those cuts on each event. */
  lemma DimuonCuts(batch: seq<JmeEvent>, lumiMask: Mask, kin: PairKinematics, i: nat)
    requires HasPaths(batch, Triggers) && HasPath(batch, Reference) && |lumiMask| == |batch| && i < |batch|
    ensures var sels := Selections(batch, lumiMask, kin);
            (sels["two_muons"][i] <==> TwoMuons(batch[i])) &&
            (sels["opp_sign"][i] <==> OppSign(batch[i])) &&
            (sels["central_muons"][i] <==> CentralMuons(batch[i])) &&
            (sels["muon_pt"][i] <==> MuonPt(batch[i])) &&
            (sels["dimuon_mass"][i] <==> DimuonMass(kin, batch[i])) &&
            (sels["dimuon_pt"][i] <==> DimuonPt(kin, batch[i]))
  {
    SelectionsKeepBase(batch, lumiMask, kin, "two_muons");
    SelectionsKeepBase(batch, lumiMask, kin, "opp_sign");
    SelectionsKeepBase(batch, lumiMask, kin, "central_muons");
    SelectionsKeepBase(batch, lumiMask, kin, "muon_pt");
    SelectionsKeepBase(batch, lumiMask, kin, "dimuon_mass");
    SelectionsKeepBase(batch, lumiMask, kin, "dimuon_pt");
  }

  /** With fewer than two muons an event fails every dimuon cut. */
  lemma FewerThanTwoMuonsFailDimuonCuts(batch: seq<JmeEvent>, lumiMask: Mask, kin: PairKinematics, i: nat)
    requires HasPaths(batch, Triggers) && HasPath(batch, Reference) && |lumiMask| == |batch| && i < |batch| && |batch[i].muons| < 2
    ensures forall name :: name in ["two_muons", "opp_sign", "central_muons", "muon_pt", "dimuon_mass", "dimuon_pt"] ==>
              !Selections(batch, lumiMask, kin)[name][i]
  {
    DimuonCuts(batch, lumiMask, kin, i);
    DimuonPredicates(kin, batch[i]);
  }

  /** `lead_ak4_in_barrel`: the event has a jet and the highest-pt one (the
      first of them on a tie) has |eta| < 1.3. */
  lemma LeadJetBarrelCut(batch: seq<JmeEvent>, lumiMask: Mask, kin: PairKinematics, i: nat)
    requires HasPaths(batch, Triggers) && HasPath(batch, Reference) && |lumiMask| == |batch| && i < |batch|
    ensures Selections(batch, lumiMask, kin)["lead_ak4_in_barrel"][i] <==>
            |batch[i].jets| > 0 && Abs(batch[i].jets[ArgMax(JetPts(batch[i].jets))].eta) < 1.3
  {
    SelectionsKeepBase(batch, lumiMask, kin, "lead_ak4_in_barrel");
  }

  /** Every trigger's `_accepted` mask is its HLT accept bit and its
      `_wasrun` mask the negation of its prescale bit; likewise for the
      reference path, registered as `HLT_IsoMu27` and `HLT_IsoMu27_wasrun`. */
  lemma TriggerBits(batch: seq<JmeEvent>, lumiMask: Mask, kin: PairKinematics, t: string, i: nat)
    requires HasPaths(batch, Triggers) && HasPath(batch, Reference) && |lumiMask| == |batch| && i < |batch|
    requires t in Triggers
    ensures Selections(batch, lumiMask, kin)[t + Suffix(Accepted)][i] == batch[i].paths[t].accept
    ensures Selections(batch, lumiMask, kin)[t + Suffix(WasRun)][i] == !batch[i].paths[t].prescaled
    ensures Selections(batch, lumiMask, kin)[Reference][i] == batch[i].paths[Reference].accept
    ensures Selections(batch, lumiMask, kin)[Reference + Suffix(WasRun)][i] == !batch[i].paths[Reference].prescaled
  {
    var base := BaseSelections(batch, lumiMask, kin);
    TriggerSelectionsAt(base, batch, Triggers, t, Accepted);
    TriggerSelectionsAt(base, batch, Triggers, t, WasRun);
    OtherNameNotTriggerName(Reference, t, Accepted);
    OtherNameNotTriggerName(Reference, t, WasRun);
    assert t != Reference;
    if Reference + Suffix(WasRun) == t + Suffix(Accepted) {
      TriggerNameInjective(Reference, WasRun, t, Accepted);
    }
    if Reference + Suffix(WasRun) == t + Suffix(WasRun) {
      TriggerNameInjective(Reference, WasRun, t, WasRun);
    }
  }

  /** `ak4[leadak4_index].<field>`: the leading jet's value, or none without jets. */
  function LeadJetValues(jets: seq<Jet>, field: Jet -> real): (vs: seq<real>)
    ensures |jets| == 0 ==> vs == []
    ensures |jets| > 0 ==> vs == [field(jets[ArgMax(JetPts(jets))])]
  {
    var lead := LeadingJet(jets);
    seq(|lead|, k requires 0 <= k < |lead| => field(lead[k]))
  }

  /** `dimuons.pt`: the pt of each dimuon of the event. */
  function DimuonPts(kin: PairKinematics, muons: seq<Muon>): (vs: seq<real>)
    ensures |muons| < 2 ==> vs == []
    ensures |muons| >= 2 ==> vs == [kin.pt(muons[0], muons[1])]
  {
    var pairs := Dimuons(muons);
    DistinctsOfLeadingTwo(muons);
    seq(|pairs|, k requires 0 <= k < |pairs| => kin.pt(pairs[k].0, pairs[k].1))
  }

  /** The histograms jmeNano fills, per event. */
  function Columns(batch: seq<JmeEvent>, kin: PairKinematics): (columns: map<string, Column>)
    ensures ColumnsAligned(columns, |batch|)
  {
    map[
      "ak4_pt0" := seq(|batch|, i requires 0 <= i < |batch| => LeadJetValues(batch[i].jets, (j: Jet) => j.pt)),
      "ak4_eta0" := seq(|batch|, i requires 0 <= i < |batch| => LeadJetValues(batch[i].jets, (j: Jet) => j.eta)),
      "ak4_phi0" := seq(|batch|, i requires 0 <= i < |batch| => LeadJetValues(batch[i].jets, (j: Jet) => j.phi)),
      "z_pt" := seq(|batch|, i requires 0 <= i < |batch| => DimuonPts(kin, batch[i].muons))
    ]
  }

  /** The dimuon pt histogram of a region holds the pt of the leading
      dimuon of exactly the passing events that have two muons. */
  lemma ZPtFilled(batch: seq<JmeEvent>, lumiMask: Mask, kin: PairKinematics, regions: map<string, seq<string>>,
                  dataset: string, region: string, x: real)
    requires HasPaths(batch, Triggers) && HasPath(batch, Reference) && |lumiMask| == |batch|
    requires CutsDefined(regions, Selections(batch, lumiMask, kin)) && region in regions
    ensures x in Contents(Filled(regions, Selections(batch, lumiMask, kin), |batch|, dataset, Columns(batch, kin)), HistKey("z_pt", region, dataset)) <==>
            exists i :: 0 <= i < |batch| && RegionMask(Selections(batch, lumiMask, kin), regions[region], |batch|)[i] &&
                        |batch[i].muons| >= 2 && x == kin.pt(batch[i].muons[0], batch[i].muons[1])
  {
    var columns := Columns(batch, kin);
    FilledMembership(regions, Selections(batch, lumiMask, kin), |batch|, dataset, columns, region, "z_pt", x);
    forall i | 0 <= i < |batch|
      ensures x in columns["z_pt"][i] <==> |batch[i].muons| >= 2 && x == kin.pt(batch[i].muons[0], batch[i].muons[1])
    {
      assert columns["z_pt"][i] == DimuonPts(kin, batch[i].muons);
    }
  }

  /** An event's `ak4_pt0` entry: its leading jet's pt, or nothing. */
  lemma LeadJetPtEntry(batch: seq<JmeEvent>, kin: PairKinematics, i: nat, x: real)
    requires i < |batch|
    ensures x in Columns(batch, kin)["ak4_pt0"][i] <==> |batch[i].jets| > 0 && x == batch[i].jets[ArgMax(JetPts(batch[i].jets))].pt
  {
    assert Columns(batch, kin)["ak4_pt0"][i] == LeadJetValues(batch[i].jets, (j: Jet) => j.pt);
  }

  /** The leading-jet pt histogram of a region holds the pt of the leading
      jet of exactly the passing events that have a jet. */
  lemma LeadJetPtFilled(batch: seq<JmeEvent>, lumiMask: Mask, kin: PairKinematics, regions: map<string, seq<string>>,
                        dataset: string, region: string, x: real)
    requires HasPaths(batch, Triggers) && HasPath(batch, Reference) && |lumiMask| == |batch|
    requires CutsDefined(regions, Selections(batch, lumiMask, kin)) && region in regions
    ensures x in Contents(Filled(regions, Selections(batch, lumiMask, kin), |batch|, dataset, Columns(batch, kin)), HistKey("ak4_pt0", region, dataset)) <==>
            exists i :: 0 <= i < |batch| && RegionMask(Selections(batch, lumiMask, kin), regions[region], |batch|)[i] &&
                        |batch[i].jets| > 0 && x == batch[i].jets[ArgMax(JetPts(batch[i].jets))].pt
  {
    var columns := Columns(batch, kin);
    FilledMembership(regions, Selections(batch, lumiMask, kin), |batch|, dataset, columns, region, "ak4_pt0", x);
    forall i | 0 <= i < |batch|
      ensures x in columns["ak4_pt0"][i] <==> |batch[i].jets| > 0 && x == batch[i].jets[ArgMax(JetPts(batch[i].jets))].pt
    {
      LeadJetPtEntry(batch, kin, i, x);
    }
  }

  /** No trigger is listed twice. */
  lemma TriggersDistinct(j: nat)
    requires j < |Triggers|
    ensures Triggers[j] !in Triggers[..j] && Triggers[j] != Reference
  {
  }

  /** The names of a trigger not yet listed are still free. */
  lemma {:induction false} TriggerNamesFresh(base: map<string, Mask>, batch: seq<JmeEvent>, triggers: seq<string>, t: string)
    requires HasPaths(batch, triggers) && t !in triggers
    requires forall f: Flag :: t + Suffix(f) !in base
    ensures forall f: Flag :: t + Suffix(f) !in TriggerSelections(base, batch, triggers)
  {
    TriggerSelectionsKeys(base, batch, triggers);
    forall f: Flag, g: Flag, u | u in triggers
      ensures t + Suffix(f) != u + Suffix(g)
    {
      if t + Suffix(f) == u + Suffix(g) {
        TriggerNameInjective(t, f, u, g);
      }
    }
  }

  /** The trigger loop of process: for each trigger in turn, its accept bit
      as `_accepted` and its negated prescale bit as `_wasrun`. */
  method AddTriggerSelections(sel: Registry, batch: seq<JmeEvent>, triggers: seq<string>)
    requires sel.Valid() && sel.size == |batch| && HasPaths(batch, triggers)
    requires forall j :: 0 <= j < |triggers| ==> triggers[j] !in triggers[..j]
    requires forall t, f: Flag :: t + Suffix(f) !in sel.masks
    modifies sel
    ensures sel.Valid() && sel.masks == TriggerSelections(old(sel.masks), batch, triggers)
  {
    ghost var base := sel.masks;
    for j := 0 to |triggers|
      invariant sel.Valid() && sel.size == |batch|
      invariant HasPaths(batch, triggers[..j])
      invariant sel.masks == TriggerSelections(base, batch, triggers[..j])
    {
      HasPathsPrefix(batch, triggers, j + 1);
      var trigger := triggers[j];
      assert triggers[..j + 1][..j] == triggers[..j];
      TriggerNamesFresh(base, batch, triggers[..j], trigger);
      assert |trigger + Suffix(Accepted)| != |trigger + Suffix(WasRun)|;
      sel.Add(trigger + Suffix(Accepted), FlagMask(batch, trigger, Accepted));
      sel.Add(trigger + Suffix(WasRun), FlagMask(batch, trigger, WasRun));
    }
    assert triggers[..|triggers|] == triggers;
  }

  /** The first four registrations of process, in order. */
  method AddLumiAndMuonSelections(sel: Registry, batch: seq<JmeEvent>, lumiMask: Mask)
    requires sel.Valid() && sel.size == |batch| && sel.masks == map[] && |lumiMask| == |batch|
    modifies sel
    ensures sel.Valid() && sel.masks == LumiAndMuonSelections(batch, lumiMask)
  {
    sel.Add("inclusive", InclusiveMask(batch));
    sel.Add("lumi_mask", lumiMask);
    sel.Add("opp_sign", EventMask(batch, OppSign));
    sel.Add("two_muons", EventMask(batch, TwoMuons));
  }

  /** The registrations of process before the trigger loop, in order. */
  method AddBaseSelections(sel: Registry, batch: seq<JmeEvent>, lumiMask: Mask, kin: PairKinematics)
    requires sel.Valid() && sel.size == |batch| && sel.masks == map[] && |lumiMask| == |batch|
    modifies sel
    ensures sel.Valid() && sel.masks == BaseSelections(batch, lumiMask, kin)
  {
    AddLumiAndMuonSelections(sel, batch, lumiMask);
    sel.Add("central_muons", EventMask(batch, CentralMuons));
    sel.Add("muon_pt", EventMask(batch, MuonPt));
    sel.Add("dimuon_mass", DimuonMassMask(batch, kin));
    sel.Add("dimuon_pt", DimuonPtMask(batch, kin));
    sel.Add("lead_ak4_in_barrel", EventMask(batch, LeadJetInBarrel));
  }

  /** No trigger name is taken by the registrations before the loop. */
  lemma BaseNamesFree(batch: seq<JmeEvent>, lumiMask: Mask, kin: PairKinematics)
    ensures forall t, f: Flag :: t + Suffix(f) !in BaseSelections(batch, lumiMask, kin)
  {
    forall t, f: Flag
      ensures t + Suffix(f) !in BaseSelections(batch, lumiMask, kin)
    {
      OtherNameNotTriggerName("inclusive", t, f);
      OtherNameNotTriggerName("lumi_mask", t, f);
      OtherNameNotTriggerName("opp_sign", t, f);
      OtherNameNotTriggerName("two_muons", t, f);
      OtherNameNotTriggerName("central_muons", t, f);
      OtherNameNotTriggerName("muon_pt", t, f);
      OtherNameNotTriggerName("dimuon_mass", t, f);
      OtherNameNotTriggerName("dimuon_pt", t, f);
      OtherNameNotTriggerName("lead_ak4_in_barrel", t, f);
    }
  }

  /** The reference path's two names are free after the trigger loop. */
  lemma ReferenceNamesFree(base: map<string, Mask>, batch: seq<JmeEvent>)
    requires HasPaths(batch, Triggers) && base.Keys == OtherNames - {Reference}
    ensures Reference !in TriggerSelections(base, batch, Triggers)
    ensures Reference + Suffix(WasRun) !in TriggerSelections(base, batch, Triggers)
  {
    TriggerSelectionsKeys(base, batch, Triggers);
    forall t, f: Flag | t in Triggers
      ensures Reference != t + Suffix(f) && Reference + Suffix(WasRun) != t + Suffix(f)
    {
      OtherNameNotTriggerName(Reference, t, f);
      if Reference + Suffix(WasRun) == t + Suffix(f) {
        TriggerNameInjective(Reference, WasRun, t, f);
      }
    }
    assert Reference + Suffix(WasRun) == "HLT_IsoMu27_wasrun";
  }

  class JmeNanoProcessor {
    /** self._year: set by _configure once the dataset's year is known. */
    var year: Option<int>

    constructor ()
      ensures year == None
    {
      year := None;
    }

    /** _configure: the dataset's year, or the sentinel -1 when extract_year
        fails; processing goes on either way. */
    method Configure(extracted: Option<int>)
      modifies this
      ensures extracted.Some? ==> year == extracted
      ensures extracted.None? ==> year == Some(-1)
    {
      if extracted.Some? {
        year := extracted;
      } else {
        year := Some(-1);
      }
    }

    /** process: an empty batch gives the accumulator's identity; otherwise
        the selections are registered in order and every region of `regions`
        (regions_for_jmenano's table) is filled. `extracted` is what
        extract_year gives for the dataset (None when it raises),
        `lumiMasks` the LUMI_MASKS setting with its golden lists read. */
    method Process(batch: seq<JmeEvent>, dataset: string, extracted: Option<int>, lumiMasks: map<int, GoldenList>,
                   kin: PairKinematics, regions: map<string, seq<string>>)
      returns (r: Result<Accumulator>)
      requires HasPaths(batch, Triggers) && HasPath(batch, Reference)
      modifies this
      ensures |batch| == 0 ==> r == Ok(Identity()) && year == old(year)
      ensures |batch| > 0 ==> year == Some(YearOrSentinel(extracted))
      ensures |batch| > 0 ==>
                var sels := Selections(batch, YearLumiMask(lumiMasks, YearOrSentinel(extracted), Ids(batch)), kin);
                (r.Err? <==> !CutsDefined(regions, sels)) &&
                (r.Err? ==> r.failure.UndefinedSelection? &&
                             exists region :: region in regions && FirstUndefined(sels, regions[region], r.failure.name)) &&
                (r.Ok? ==> r.value == Filled(regions, sels, |batch|, dataset, Columns(batch, kin)))
    {
      if |batch| == 0 {
        return Ok(Identity());
      }
      Configure(extracted);
      var sel := new Registry(|batch|);
      var lumiMask := YearLumiMask(lumiMasks, year.value, Ids(batch));
      AddBaseSelections(sel, batch, lumiMask, kin);
      ghost var base := BaseSelections(batch, lumiMask, kin);
      BaseNamesFree(batch, lumiMask, kin);
      forall j | 0 <= j < |Triggers|
        ensures Triggers[j] !in Triggers[..j]
      {
        TriggersDistinct(j);
      }
      AddTriggerSelections(sel, batch, Triggers);
      ReferenceNamesFree(base, batch);
      sel.Add(Reference, FlagMask(batch, Reference, Accepted));
      sel.Add(Reference + Suffix(WasRun), FlagMask(batch, Reference, WasRun));
      assert sel.masks == Selections(batch, lumiMask, kin);
      r := FillRegions(regions, sel, dataset, Columns(batch, kin));
    }
  }
}
