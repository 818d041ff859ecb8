/** The selection registry of one batch (coffea's PackedSelection as the
    processors use it): named per-event boolean masks, added one by one and
    combined by AND into region masks. */
module Selection {
  import opened Common

  /** One boolean per event of the batch. */
  type Mask = seq<bool>

  /** Every registered mask has one entry per event. */
  predicate Aligned(masks: map<string, Mask>, n: nat)
  {
    forall c :: c in masks ==> |masks[c]| == n
  }

  /** Every cut in the list has been registered. */
  predicate Defined(masks: map<string, Mask>, cuts: seq<string>)
  {
    forall c :: c in cuts ==> c in masks
  }

  /** Event i passes every cut in the list. */
  predicate PassesAll(masks: map<string, Mask>, cuts: seq<string>, i: int)
  {
    forall c :: c in cuts ==> c in masks && 0 <= i < |masks[c]| && masks[c][i]
  }

  /** `name` is the first cut of the list, in list order, that is not
      registered: the one `selection.all` stops at. */
  predicate FirstUndefined(masks: map<string, Mask>, cuts: seq<string>, name: string)
  {
    exists k :: 0 <= k < |cuts| && cuts[k] == name && name !in masks && Defined(masks, cuts[..k])
  }

  /** A per-event condition evaluated over a batch. */
  function EventMask<E>(batch: seq<E>, p: E -> bool): (m: Mask)
    ensures |m| == |batch|
    ensures forall i :: 0 <= i < |batch| ==> (m[i] <==> p(batch[i]))
  {
    seq(|batch|, i requires 0 <= i < |batch| => p(batch[i]))
  }

  /** The mask of a region: the element-wise AND of its cuts. */
  function RegionMask(masks: map<string, Mask>, cuts: seq<string>, n: nat): (m: Mask)
    ensures |m| == n
  {
    seq(n, i => PassesAll(masks, cuts, i))
  }

  /** Adding cuts to a region can only remove events from it: when every cut
      of `fewer` is also a cut of `more`, an event passing `more` passes
      `fewer`. The order of the cuts does not matter. */
  lemma MoreCutsFewerEvents(masks: map<string, Mask>, fewer: seq<string>, more: seq<string>, n: nat)
    requires forall c :: c in fewer ==> c in more
    ensures forall i :: 0 <= i < n && RegionMask(masks, more, n)[i] ==> RegionMask(masks, fewer, n)[i]
  {
  }

  class Registry {
    /** The number of events in the batch. */
    const size: nat
    /** The registered selections by name. */
    var masks: map<string, Mask>

    ghost predicate Valid()
      reads this
    {
      Aligned(masks, size)
    }

    /** An empty registry for a batch of n events. */
    constructor (n: nat)
      ensures Valid() && size == n && masks == map[]
    {
      size := n;
      masks := map[];
    }

    /** Registers a mask under a name not yet in use. */
    method Add(name: string, mask: Mask)
      requires Valid() && name !in masks && |mask| == size
      modifies this
      ensures Valid() && masks == old(masks)[name := mask]
    {
      masks := masks[name := mask];
    }

    /** The element-wise AND of the named masks; fails with the first name
        (in list order) that was never registered. */
    method All(cuts: seq<string>) returns (r: Result<Mask>)
      requires Valid()
      ensures r.Err? <==> !Defined(masks, cuts)
      ensures r.Err? ==> r.failure.UndefinedSelection? && FirstUndefined(masks, cuts, r.failure.name)
      ensures r.Ok? ==> |r.value| == size && forall i :: 0 <= i < size ==> (r.value[i] <==> forall c :: c in cuts ==> masks[c][i])
      ensures r.Ok? ==> r.value == RegionMask(masks, cuts, size)
    {
      var m: Mask := seq(size, _ => true);
      var j := 0;
      while j < |cuts|
        invariant 0 <= j <= |cuts|
        invariant Defined(masks, cuts[..j])
        invariant |m| == size
        invariant forall i :: 0 <= i < size ==> (m[i] <==> PassesAll(masks, cuts[..j], i))
      {
        var c := cuts[j];
        if c !in masks {
          return Err(UndefinedSelection(c));
        }
        var cut := masks[c];
        assert cuts[..j + 1] == cuts[..j] + [c];
        m := seq(size, i requires 0 <= i < size => m[i] && cut[i]);
        j := j + 1;
      }
      assert cuts[..j] == cuts;
      return Ok(m);
    }
  }
}
