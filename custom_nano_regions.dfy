/** The region table of the custom-NanoAOD trigger study
    (jmecofftea/custom_nano/definitions.py): for every trigger, a
    denominator region of events in which the trigger could have fired and
    a numerator region of those in which it did. */
module CustomNanoRegions {

  function NumRegion(trigger: string): string
  {
    trigger + "_num"
  }

  function DenRegion(trigger: string): string
  {
    trigger + "_den"
  }

  /** The denominator's cuts: the golden-JSON lumi mask, the HLT path and its
      L1 seed both run unprescaled, and the L1 seed accepted. */
  function DenCuts(trigger: string): seq<string>
  {
    ["lumi_mask", trigger + "_HLTPathNotPrescaled", trigger + "_L1TSeedNotPrescaled", trigger + "_L1TSeedAccept"]
  }

  /** The numerator's cuts: the denominator's and the HLT path accepted. */
  function NumCuts(trigger: string): seq<string>
  {
    DenCuts(trigger) + [trigger + "_HLTPathAccept"]
  }

  /** Region names never collide: a numerator name is never a denominator
      name, and different triggers give different names. */
  lemma {:induction false} RegionNamesDistinct(a: string, b: string)
    ensures NumRegion(a) != DenRegion(b)
    ensures NumRegion(a) == NumRegion(b) ==> a == b
    ensures DenRegion(a) == DenRegion(b) ==> a == b
  {
    if |a| == |b| {
      assert NumRegion(a)[|a| + 1] == 'n' && DenRegion(b)[|b| + 1] == 'd';
    }
    if NumRegion(a) == NumRegion(b) {
      assert a == NumRegion(a)[..|a|] && b == NumRegion(b)[..|b|];
    }
    if DenRegion(a) == DenRegion(b) {
      assert a == DenRegion(a)[..|a|] && b == DenRegion(b)[..|b|];
    }
  }

  /** The region table regionsForCustomNanoProcessor returns for a trigger
      list: exactly the `_num` and `_den` regions of the listed triggers, with
      their cuts. A later trigger's entries are written over an earlier
      one's. */
  function RegionTable(triggers: seq<string>): (table: map<string, seq<string>>)
    ensures forall t :: t in triggers ==>
              NumRegion(t) in table && table[NumRegion(t)] == NumCuts(t) &&
              DenRegion(t) in table && table[DenRegion(t)] == DenCuts(t)
  {
    if triggers == [] then map[]
    else
      var t := triggers[|triggers| - 1];
      var before := RegionTable(triggers[..|triggers| - 1]);
      var table := before[NumRegion(t) := NumCuts(t)][DenRegion(t) := DenCuts(t)];
      RegionNamesDistinct(t, t);
      assert forall u :: u in triggers ==> u in triggers[..|triggers| - 1] || u == t;
      assert forall u :: u in triggers[..|triggers| - 1] ==> u in triggers;
      forall u | u in triggers[..|triggers| - 1]
        ensures table[NumRegion(u)] == NumCuts(u) && table[DenRegion(u)] == DenCuts(u)
      {
        RegionNamesDistinct(u, t);
        RegionNamesDistinct(t, u);
      }
      table
  }

  /** Every region of the table is the `_num` or `_den` region of a listed
      trigger: the table holds no other key. */
  lemma {:induction false} RegionOrigin(triggers: seq<string>, region: string) returns (t: string)
    requires region in RegionTable(triggers)
    ensures t in triggers && (region == NumRegion(t) || region == DenRegion(t))
  {
    var last := triggers[|triggers| - 1];
    if region == NumRegion(last) || region == DenRegion(last) {
      t := last;
    } else {
      t := RegionOrigin(triggers[..|triggers| - 1], region);
      assert triggers == triggers[..|triggers| - 1] + [last];
    }
  }

  /** No trigger, no region. */
  lemma NoTriggersNoRegions()
    ensures RegionTable([]) == map[]
  {
  }

  /** Listing a trigger a second time changes nothing: its entries are
      overwritten with the same cuts. */
  lemma {:induction false} RepeatedTriggerChangesNothing(triggers: seq<string>, t: string)
    requires t in triggers
    ensures RegionTable(triggers + [t]) == RegionTable(triggers)
  {
    assert (triggers + [t])[..|triggers|] == triggers;
  }

  /** The shape of a trigger's two regions: both start with the lumi mask,
      both require the path and its seed unprescaled and the seed accepted,
      the denominator has 4 cuts and the numerator is the denominator with
      the HLT accept appended. */
  lemma RegionCutsShape(trigger: string)
    ensures |DenCuts(trigger)| == 4 && |NumCuts(trigger)| == 5
    ensures NumCuts(trigger)[..4] == DenCuts(trigger)
    ensures NumCuts(trigger)[4] == trigger + "_HLTPathAccept"
    ensures DenCuts(trigger)[0] == "lumi_mask" && NumCuts(trigger)[0] == "lumi_mask"
    ensures forall c :: c in [trigger + "_HLTPathNotPrescaled", trigger + "_L1TSeedNotPrescaled", trigger + "_L1TSeedAccept"] ==>
              c in DenCuts(trigger) && c in NumCuts(trigger)
  {
  }

  /** regionsForCustomNanoProcessor: builds the table in place, trigger by
      trigger, from the common, prescale and L1 cut lists. */
  method RegionsForCustomNano(triggers: seq<string>) returns (regions: map<string, seq<string>>)
    ensures regions == RegionTable(triggers)
  {
    regions := map[];
    var commonCuts := ["lumi_mask"];
    for j := 0 to |triggers|
      invariant regions == RegionTable(triggers[..j])
    {
      var trigger := triggers[j];
      var prescaleCuts := [trigger + "_HLTPathNotPrescaled", trigger + "_L1TSeedNotPrescaled"];
      var l1Cuts := [trigger + "_L1TSeedAccept"];
      regions := regions[trigger + "_num" := commonCuts + prescaleCuts + l1Cuts + [trigger + "_HLTPathAccept"]];
      regions := regions[trigger + "_den" := commonCuts + prescaleCuts + l1Cuts];
      assert commonCuts + prescaleCuts + l1Cuts == DenCuts(trigger);
      assert triggers[..j + 1][..j] == triggers[..j];
    }
    assert triggers[..|triggers|] == triggers;
  }
}
