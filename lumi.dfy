/** The lumi-mask filter: a golden list certifies ranges of luminosity
    blocks run by run, and an event passes when its (run, lumi block) falls
    inside one of them. */
module Lumi {

  /** Where an event was recorded: its run and its luminosity block. */
  datatype EventId = EventId(run: int, lumiBlock: int)

  /** An inclusive range of certified luminosity blocks. */
  datatype LumiRange = LumiRange(first: int, last: int)

  /** A golden list (the golden JSON once read): the certified ranges of every certified run. */
  type GoldenList = map<int, seq<LumiRange>>

  predicate Certified(golden: GoldenList, id: EventId)
  {
    id.run in golden &&
    exists k :: 0 <= k < |golden[id.run]| && golden[id.run][k].first <= id.lumiBlock <= golden[id.run][k].last
  }

  /** LumiMask(json)(run, luminosityBlock): one entry per event. */
  function GoldenMask(golden: GoldenList, ids: seq<EventId>): (m: seq<bool>)
    ensures |m| == |ids|
    ensures forall i :: 0 <= i < |ids| ==> (m[i] <==> Certified(golden, ids[i]))
  {
    seq(|ids|, i requires 0 <= i < |ids| => Certified(golden, ids[i]))
  }

  /** The lumi mask of a processor that looks its golden list up by year
      (`lumiMasks` is the LUMI_MASKS setting, already read): a year without
      a golden list filters nothing (fail open); a year with one rejects
      every event it does not certify. */
  function YearLumiMask(lumiMasks: map<int, GoldenList>, year: int, ids: seq<EventId>): (m: seq<bool>)
    ensures |m| == |ids|
    ensures year !in lumiMasks ==> forall i :: 0 <= i < |ids| ==> m[i]
    ensures year in lumiMasks ==> forall i :: 0 <= i < |ids| ==> (m[i] <==> Certified(lumiMasks[year], ids[i]))
  {
    if year in lumiMasks then GoldenMask(lumiMasks[year], ids) else seq(|ids|, _ => true)
  }
}
